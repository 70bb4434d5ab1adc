# ZRemote core, modelled in Dafny

This project models the parts of ZRemote in which state and text are hardest to keep right, and proves properties of the
models: what every step keeps, what holds over whole runs, what undoes what. `dafny verify dfyconfig.toml` checks all of
it.

## What is modelled

**Patches.** `PatchReader` is the line-driven reader of unified diffs as a class, next to a function that says what one
line does to its state (POSIX.1-2017, `diff`, "Diff -u or -U Output Format"). `PatchHeaders` reads ranges, hunk headers
and git's quoted paths, `ParsePatch` bounds the input and attaches source slices, `PatchPrinter` and `PatchRoundTrip`
write patches that the parser must undo, and `CapturedTurnChanges` publishes line counts. A Swift `String` is modelled as
its UTF-8 bytes, one character per byte, so cutting at line feeds is exact (section 3 of RFC 3629).

**Reference editor.** `ReferenceText`, `ReferenceOffsets`, `ReferenceEditing`, `ReferenceSplices` and
`ReferenceProjection` keep the stored draft with full links and the editor text with short labels in step, over UTF-16
code units (section 2 of RFC 2781). `ReferenceScan` and `ReferenceLinks` find the references. Decoding a link is a
parameter, a partial function with non-empty labels. `ReferenceRescan` compares an edit with the scan that follows it.
`MarkdownLines` holds what the two readers of fenced code share, and `ChatBlocks` is the other one of them (cf. section
4.5 of CommonMark).

**Demo peer.** `DemoPeer` gives the state of the in-memory peer and a function for each entry point; `DemoClient` is the
object, each method proved to make that step. `DemoIds`, `DemoTasks`, `DemoLeases`, `DemoLedger` and `DemoAwake` are five
invariants, `DemoRuns` keeps them over every step and run, `DemoTheorems` draws the conclusions, `DemoSamples` starts a
peer, `DemoWakeups` says which steps leave a deliverable message behind, and `DemoHandles` which handles a commit may come
with. Identifiers are numbers; a new one is the next number, above those of the samples; the clock is an integer that
never goes back; cancelling a task removes it; a task runs one word at a time between other steps.

**Build admission.** `Admission` has the shared queue and slot and the locked steps on it, `AdmissionRuns` the runners
with their places in `main`, crashes, exceptions and children. Each locked section is one step, `alive` is exact and
process numbers are not reused; whether memory suffices is a parameter of a poll.

**The app model.** `ComposerDrafts` cuts the asynchronous `send` at its awaits, and `DraftSafety` interleaves the pieces
with typing, attachments, navigation, account changes and the reading of preferences; `DraftGenerations` says what becomes
of a `send` after an account change. `Answers` does the same for answers to questions. `UsageWarnings` merges and
dismisses usage warnings, and `WarningStages` says when merging them in stages is merging them at once.

**Transcript rows.** `TurnFooters` places work durations and hides empty rows, `TranscriptActivity` groups parts.

## What was found

- A peer may publish a new session before `createSession` returns and `send` moves the draft there. If the user opens that
  session and types or attaches something before the call returns, the transfer replaces it
  (`DraftSafety.TextOverwritten`). Everything survives if the slot of the created session was vacant; otherwise exactly a
  text that differs from the one moved there, and the files that stand there, are lost, whether the user has navigated or
  not (`CreationOverwritesText`, `CreationOverwritesFile`).
- A file that the user takes off a draft while `createSession` runs comes back in the new session exactly when the user has
  navigated meanwhile, for then the submitted files are put there as they were (`DraftSafety.RemovedFileReturns`, and
  `RemovedFileComesBack` for a run).
- `moveQueuedMessage` does not look at the queue again. A free row that is moved in front of one being edited, in a session
  at rest, could be delivered and is not (`DemoWakeups.MoveCanStall`); no other step leaves a message so
  (`DemoWakeups.StepDelivers`).
- An edit through the labels keeps the references it does not overlap, but the composer is then made anew from the source.
  As long as code ranges outside agree, that finds the same references exactly if the scan still stands at their edges and
  finds nothing new between (`ReferenceRescan.EditRescans`); an exclamation mark or a backslash in front of a link takes it
  away (`MarkHides`).
- If a build runner dies or throws between starting its child and recording it, the next runner is admitted beside that
  child (`AdmissionRuns.GapDoubles`, and `TwoBuilds` for a run from the start). Without such a failure there is never more
  than one.
- `finishQueuedMessageEdit` compares the session of a handle with that of the lease but not its row, so it relies on
  handles being the ones that were issued: `DemoHandles.CommitKeepsLeases` says exactly which commits keep the leases
  right, and `HandleCanStrand` shows one that does not.
- Two unquoted paths on a `diff --git` line are told apart only if the old one does not hold " b/"
  (`PatchPrinter.PlainGitHeader`); the `---`/`+++` lines settle it where there are any.
- Merging usage warnings in stages is merging at once when the later notices come second. Preferences that are read
  after something was observed are merged first, and then it can differ (`WarningStages.LateReadRun`). It does not differ
  exactly if, for every session with notices of both kinds, the first saved and the first observed one have the same owner,
  or the observed ones of the saved owner are all older than the kept saved one, or the newest of them is that very notice
  (`WarningStages.LateReadAgrees`).

## Model

| member | source | states |
|---|---|---|
| PatchRoundTrip.PrintParses | Sources/ZRemoteCore/Diffs/UnifiedDiffParser.swift:13-56 | for every list of files whose hunks have exact counts, printed with any text on the `diff --git` line, any extended header lines behind it and `---`/`+++` lines with plain or quoted paths, the parser gives back, within its limits, the same paths, hunks, kinds, texts and numbers, with nothing partial, truncated or unsupported |
| DiffTheorems.PatchesTileInput | Sources/ZRemoteCore/Diffs/UnifiedDiffParser.swift:20-50 | when line 0 opens a file and no combined diff is consumed, the patches of the files put together are the consumed input byte for byte, also after the line or the byte limit has cut it |
| DiffTheorems.SpansAreSlices | Sources/ZRemoteCore/Diffs/UnifiedDiffParser.swift:46-51 | one non-empty span per file, in order, disjoint and within the consumed lines; ids are positions and every patch is exactly its source lines |
| DiffTheorems.CountsAreExact | Sources/ZRemoteCore/Diffs/UnifiedDiffParser.swift:87-136 | in every hunk of every file, partial or not, numbers run on from the header starts within the announced counts, and so never pass the largest `Int`; in a file that is not partial each hunk holds exactly the lines its header announces, and additions minus deletions are the difference of the headers |
| DiffTheorems.NumberedAt | Sources/ZRemoteCore/Diffs/UnifiedDiffParser.swift:117-130 | each line carries the number that its place among the lines of its side gives it, and that place lies within the side |
| DiffTheorems.FirstOpens | Sources/ZRemoteCore/Diffs/UnifiedDiffParser.swift:73-171 | between files, exactly which lines open one; it starts at that line |
| DiffInvariants.StepSound | Sources/ZRemoteCore/Diffs/UnifiedDiffParser.swift:73-188 | whatever line comes, the countdowns are what the open hunk still lacks, finished hunks that fall short mark their file partial, and spans stay ordered |
| DiffInvariants.RunSound | Sources/ZRemoteCore/Diffs/UnifiedDiffParser.swift:32-43 | the same for every run over the lines of an input |
| ParsePatch.Parse | Sources/ZRemoteCore/Diffs/UnifiedDiffParser.swift:13-56 | the loop over lines and files computes the parse of the bounded input |
| ParsePatch.ConsumeLines | Sources/ZRemoteCore/Diffs/UnifiedDiffParser.swift:32-43 | the line loop stops at the line limit and feeds each line with the next one |
| ParsePatch.AttachPatches | Sources/ZRemoteCore/Diffs/UnifiedDiffParser.swift:46-51 | each file gets the source slice of its own span |
| PatchReader.Reader.Consume | Sources/ZRemoteCore/Diffs/UnifiedDiffParser.swift:73-171 | one line takes the reader from its state to the next one, all twelve fields |
| PatchReader.Reader.ConsumeHunkHeader | Sources/ZRemoteCore/Diffs/UnifiedDiffParser.swift:87-106 | a hunk header closes the open hunk and opens the next, or marks the file partial when it cannot be read |
| PatchReader.Reader.ConsumeBody | Sources/ZRemoteCore/Diffs/UnifiedDiffParser.swift:117-130 | a body line moves just the counters of the sides it stands on |
| PatchReader.Reader.ConsumeHeaders | Sources/ZRemoteCore/Diffs/UnifiedDiffParser.swift:137-153 | path lines of a file header, told from deletions by the line that follows |
| PatchReader.Reader.Append | Sources/ZRemoteCore/Diffs/UnifiedDiffParser.swift:173-179 | an oversized line is cut for display and marks its file partial |
| PatchReader.Reader.CloseFile | Sources/ZRemoteCore/Diffs/UnifiedDiffParser.swift:190-197 | a finished file gets the span of its lines |
| PatchReader.Reader.CloseAll | Sources/ZRemoteCore/Diffs/UnifiedDiffParser.swift:199-203 | the end closes the open file, partial when the input was cut |
| PatchHeaders.ParseRange | Sources/ZRemoteCore/Diffs/UnifiedDiffParser.swift:213-222 | an accepted range starts and ends within `Int`, and is empty or starts at a line |
| PatchPrinter.HeaderParses | Sources/ZRemoteCore/Diffs/UnifiedDiffParser.swift:205-211 | a printed hunk header is read back, with the count left out or not and any section heading behind it |
| PatchPrinter.RangeParses | Sources/ZRemoteCore/Diffs/UnifiedDiffParser.swift:213-222 | a printed range is read back |
| PatchPrinter.PathParses | Sources/ZRemoteCore/Diffs/UnifiedDiffParser.swift:262-297 | a path is read back from its plain form and from git's quoted one with octal and letter escapes |
| PatchPrinter.PlainGitHeader | Sources/ZRemoteCore/Diffs/UnifiedDiffParser.swift:254-258 | two unquoted paths are told apart on the `diff --git` line if and only if the old one does not hold " b/" itself |
| PatchPrinter.QuotedGitHeader | Sources/ZRemoteCore/Diffs/UnifiedDiffParser.swift:239-253 | two quoted paths are always read back from the `diff --git` line |
| PatchHeaders.DecodePath | Sources/ZRemoteCore/Diffs/UnifiedDiffParser.swift:262-297 | the escape loop decodes every byte of a quoted path |
| PatchHeaders.ReadGitHeader | Sources/ZRemoteCore/Diffs/UnifiedDiffParser.swift:236-259 | the search for the closing quote and for " b/" finds the paths |
| CapturedTurnChanges.PublishedCountsAreExact | Sources/ZRemoteCore/Diffs/CapturedTurnChanges.swift:46-57 | counts are published for both sides or none, only for whole text files, and then agree with the hunk headers |
| CapturedTurnChanges.CaptureOfPrint | Sources/ZRemoteCore/Diffs/CapturedTurnChanges.swift:46-57 | a whole patch publishes, file by file, the numbers of lines it was printed with |
| ReferenceProjection.EditKeepsStep | Sources/ZRemoteCore/ComposerReferenceText.swift:82-116 | for every new value and selection, in the labels or in the source, the splice turns the old text exactly into the value; a reference is dropped, as a whole, if and only if a deletion or replacement overlaps it, and a caret inside one goes to its nearer end; both ends of the widened range stand between references at the same places of both texts; the source outside it is kept unit for unit; and the new source shown through the surviving references is the old text with just that range replaced, which is the value itself when no reference is touched |
| ReferenceProjection.TextIsProjection | Sources/ZRemoteCore/ComposerReferenceText.swift:22-36 | the editor text is always the source with every reference shown as its label |
| ReferenceProjection.SplicedIsValid | Sources/ZRemoteCore/ComposerReferenceText.swift:82-88 | replacing a range between gaps leaves gaps and labels that match on both sides |
| ReferenceRescan.EditRescans | Sources/ZRemoteCore/ComposerReferenceText.swift:22-36 | the composer made anew from an edited source is the one the edit leads to, with just the kept references, if and only if the new scan stands where the last kept reference before the touched ones ends and where the first one behind them starts, and finds nothing in between; provided the code ranges outside agree |
| ReferenceRescan.KeptScan | Sources/ZRemoteCore/ComposerReferenceText.swift:124-182 | the "only if" needs nothing of the code ranges |
| ReferenceRescan.MarkHides | Sources/ZRemoteCore/ComposerReferenceText.swift:142-181 | an exclamation mark or a backslash typed in front of a link where the scanner stands takes the link away |
| ReferenceRescan.SourceDetermines | Sources/ZRemoteCore/ComposerReferenceText.swift:22-36 | a composer is determined by its source and its references there |
| ReferenceSplices.Choose | Sources/ZRemoteCore/ComposerReferenceText.swift:92-116 | each branch of `editing` yields a splice that turns the old text exactly into the new one |
| ReferenceSplices.DifferenceKeepsPairs | Sources/ZRemoteCore/ComposerReferenceText.swift:108-115 | on well-formed text the difference branch cuts no surrogate pair of the old or the new value |
| ReferenceSplices.Edit | Sources/ZRemoteCore/ComposerReferenceText.swift:92-116 | the three branches in their order, with both difference loops, compute the edit |
| ReferenceSplices.MeasurePrefix | Sources/ZRemoteCore/ComposerReferenceText.swift:108-110 | the prefix loop finds the longest common prefix, less a pair it would cut |
| ReferenceSplices.MeasureSuffix | Sources/ZRemoteCore/ComposerReferenceText.swift:111-113 | the suffix loop finds the longest common suffix behind the prefix, less a pair it would cut |
| ReferenceOffsets.OffsetsMonotone | Sources/ZRemoteCore/ComposerReferenceText.swift:38-59 | both offset maps are monotone over all integers and stay in bounds |
| ReferenceOffsets.OffsetsInvert | Sources/ZRemoteCore/ComposerReferenceText.swift:38-59 | the maps undo each other at every offset that is not strictly inside a reference |
| ReferenceText.ToSource | Sources/ZRemoteCore/ComposerReferenceText.swift:38-49 | the loop over references computes the source offset |
| ReferenceText.ToDisplay | Sources/ZRemoteCore/ComposerReferenceText.swift:51-59 | the loop over references computes the display offset |
| ReferenceEditing.SelectionIsAligned | Sources/ZRemoteCore/ComposerReferenceText.swift:61-80 | no selection ends inside a reference or outside the text |
| ReferenceEditing.SelectionIsLeast | Sources/ZRemoteCore/ComposerReferenceText.swift:74-78 | a non-empty selection is the least reference-aligned range around the clamped one, after a single pass |
| ReferenceEditing.SelectionIsIdempotent | Sources/ZRemoteCore/ComposerReferenceText.swift:61-80 | selecting a selection changes nothing |
| ReferenceEditing.Select | Sources/ZRemoteCore/ComposerReferenceText.swift:61-80 | the branches and the widening loop compute the selection |
| ReferenceLinks.Compose | Sources/ZRemoteCore/ComposerReferenceText.swift:22-36 | the composer is built of exactly the untouched gaps and the labels of the links found |
| ReferenceLinks.LinksAreSorted | Sources/ZRemoteCore/ComposerReferenceText.swift:142-181 | links are in bounds, in order, disjoint, and start outside every code range |
| ReferenceLinks.NoSchemeNoLinks | Sources/ZRemoteCore/ComposerReferenceText.swift:125-125 | leaving early when neither scheme occurs loses no link |
| ReferenceLinks.LinkAt | Sources/ZRemoteCore/ComposerReferenceText.swift:163-178 | the scanner always moves forward and stays in bounds, and a link spans from its bracket to its parenthesis |
| ReferenceLinks.Scan | Sources/ZRemoteCore/ComposerReferenceText.swift:124-182 | the scanning loop, with its moving place in the code ranges, finds the links |
| ReferenceLinks.FindClosing | Sources/ZRemoteCore/ComposerReferenceText.swift:129-141 | the nested loop finds the matching bracket |
| ReferenceLinks.SkipCodeSpan | Sources/ZRemoteCore/ComposerReferenceText.swift:146-158 | a code span ends at a run of as many backticks, else only the opening run is skipped |
| ReferenceScan.CodeIsSorted | Sources/ZRemoteCore/ComposerReferenceText.swift:184-204 | code ranges are non-empty, in order and disjoint, unclosed fences included |
| ReferenceScan.ReadCodeRanges | Sources/ZRemoteCore/ComposerReferenceText.swift:184-204 | the line loop finds fenced and indented code |
| ChatBlocks.FencesAgree | Sources/ZRemoteCore/ChatText.swift:92-118 | on text with line feeds only, the characters `blocks` treats as fenced are exactly those in the fenced ranges of `codeRanges` |
| ChatBlocks.PiecesRebuild | Sources/ZRemoteCore/ChatText.swift:92-118 | prose, fence lines and code in order are the text again |
| ChatBlocks.BlocksAreSlices | Sources/ZRemoteCore/ChatText.swift:87-91 | blocks are numbered in order; each shows one piece, a code block an exact slice of the text, a prose block a trimmed one |
| ChatBlocks.BlocksRise | Sources/ZRemoteCore/ChatText.swift:87-91 | later blocks show later pieces |
| ChatBlocks.PiecesShow | Sources/ZRemoteCore/ChatText.swift:87-91 | every piece with content is shown |
| ChatBlocks.Blocks | Sources/ZRemoteCore/ChatText.swift:80-119 | the line loop with its buffer, marker and length splits the message into those blocks |
| DemoRuns.RunHolds | Sources/ZRemoteCore/Client/DemoClient.swift:37-477 | every run of calls, task steps and passing time keeps the whole invariant: identifiers, tasks, leases, ledger and wakefulness |
| DemoRuns.StepHolds | Sources/ZRemoteCore/Client/DemoClient.swift:37-477 | so does every single step |
| DemoRuns.StepAwake | Sources/ZRemoteCore/Client/DemoClient.swift:107-113 | no lost wakeup: after any step a session with queued messages works, has an open question, was stopped, or has a row that is being edited |
| DemoAwake.DrainAwakes | Sources/ZRemoteCore/Client/DemoClient.swift:348-354 | looking at the queue is what wakes a session, whatever was changed before |
| DemoAwake.MoveAwakes | Sources/ZRemoteCore/Client/DemoClient.swift:374-383 | reordering keeps some row blocked where the queue rests on that alone; which moves leave a message that could be delivered is said by `StepDelivers` |
| DemoAwake.CloseAwakes | Sources/ZRemoteCore/Client/DemoClient.swift:107-113 | closing a session with edits under way loses no wakeup |
| DemoWakeups.StepDelivers | Sources/ZRemoteCore/Client/DemoClient.swift:107-431 | where no message could be delivered at once, a step leaves one behind if and only if it moves a free row in front of a head that is being edited, in an unpaused session at rest without a question |
| DemoWakeups.RunDelivers | Sources/ZRemoteCore/Client/DemoClient.swift:107-431 | so in every run without such a move nothing waits that could be delivered |
| DemoWakeups.MoveCanStall | Sources/ZRemoteCore/Client/DemoClient.swift:374-383 | a run to such a move, in every active peer with one-word replies |
| DemoRuns.StepKept | Sources/ZRemoteCore/Client/DemoClient.swift:175-250 | conservation: only an accepted send, a deletion and a committed edit change what was sent; delivery, retry, steering and reordering do not |
| DemoTheorems.OnceEach | Sources/ZRemoteCore/Client/DemoClient.swift:175-250 | every message sent and not deleted stands in its session exactly once, as a row or as a user message, and nothing else does |
| DemoLedger.SendKept | Sources/ZRemoteCore/Client/DemoClient.swift:175-204 | an accepted message is entered once, under a new identifier, trimmed and with all its files |
| DemoLedger.DrainKept | Sources/ZRemoteCore/Client/DemoClient.swift:348-354 | a delivered row keeps identifier, text and files |
| DemoLedger.RetryKept | Sources/ZRemoteCore/Client/DemoClient.swift:296-302 | a retried message keeps identifier, text and files |
| DemoLedger.SendNowKept | Sources/ZRemoteCore/Client/DemoClient.swift:356-372 | a row sent at once has no files to lose |
| DemoLedger.FinishEditKept | Sources/ZRemoteCore/Client/DemoClient.swift:417-431 | a commit changes the text of its row and nothing else |
| DemoLedger.ResumeKept | Sources/ZRemoteCore/Client/DemoClient.swift:54-82 | streaming writes into assistant messages only |
| DemoRuns.StepTasks | Sources/ZRemoteCore/Client/DemoClient.swift:206-250 | a session works exactly while a task writes for it; just that task's message streams and says the words so far |
| DemoTasks.ResumeTasks | Sources/ZRemoteCore/Client/DemoClient.swift:235-249 | each resumption of a task keeps that, also when it ends its turn |
| DemoIds.ResumeIds | Sources/ZRemoteCore/Client/DemoClient.swift:235-249 | identifiers of rows and messages stay distinct while tasks run on |
| DemoRuns.StepLeases | Sources/ZRemoteCore/Client/DemoClient.swift:394-431 | a queued row has at most one unexpired lease, is blocked under it and keeps its text; a blocked row has some lease |
| DemoTheorems.LeasedRowStays | Sources/ZRemoteCore/Client/DemoClient.swift:348-431 | as long as a lease on a queued row runs, no step but a successful commit of it, its deletion, a close, a sign-out or a restore touches the row |
| DemoTheorems.HandleNeverConflicts | Sources/ZRemoteCore/Client/DemoClient.swift:417-423 | after any run the text conflict check never fails for an issued handle |
| DemoTheorems.StaysIssued | Sources/ZRemoteCore/Client/DemoClient.swift:394-431 | a handle once issued stays good or its lease is gone, whatever happens |
| DemoTheorems.GrantIsIssued | Sources/ZRemoteCore/Client/DemoClient.swift:394-406 | a granted handle is an issued one |
| DemoTheorems.ForeignHandleStrands | Sources/ZRemoteCore/Client/DemoClient.swift:417-431 | a handle that pairs a current lease with another row frees that row and strands the one under the lease |
| DemoHandles.CommitKeepsLeases | Sources/ZRemoteCore/Client/DemoClient.swift:417-431 | a commit that succeeds keeps the leases right if and only if its handle names the row of its lease, or else that row is gone or under another lease and the freed row is under no unexpired lease or goes to a turn at once |
| DemoHandles.HandleCanStrand | Sources/ZRemoteCore/Client/DemoClient.swift:417-431 | every active peer can get there: a run after which a handle made to name another row strands one |
| DemoLeases.CloseLeases | Sources/ZRemoteCore/Client/DemoClient.swift:107-113 | after a close no row of the session is blocked, none of its leases is left, and those of other sessions are as they were |
| DemoTheorems.DrainsInOrder | Sources/ZRemoteCore/Client/DemoClient.swift:206-250 | progress: left alone, a running session delivers its whole queue in order, with its files, and comes to rest |
| DemoTheorems.SendTakesEffect | Sources/ZRemoteCore/Client/DemoClient.swift:175-204 | an accepted send resumes a stopped queue; the message waits at its end, joins the running turn or starts one, under a new identifier |
| DemoTheorems.StoppedRests | Sources/ZRemoteCore/Client/DemoClient.swift:289-294 | a stopped session is paused and at rest, nothing in it streams and no row is lost |
| DemoTheorems.RetryKeepsOrder | Sources/ZRemoteCore/Client/DemoClient.swift:296-302 | a retry keeps what users said, in its order |
| DemoIds.MovedRows | Sources/ZRemoteCore/Client/DemoClient.swift:374-383 | a moved row stands where it was sent, and the others keep their order |
| DemoTheorems.EveryRun | Sources/ZRemoteCore/Client/DemoClient.swift:14-35 | the invariant holds in every run from a new peer on, whatever proper samples it restores |
| DemoSamples.SamplesFit | Sources/ZRemoteCore/Client/DemoClient.swift:37-52 | proper samples may be restored at any time, first of all; identifiers given out later are above theirs |
| DemoSamples.SampleRun | Sources/ZRemoteCore/Client/DemoClient.swift:37-52 | a new peer that restores a working sample with three messages and three rows, and a finished one: an instance of the runs above |
| DemoRuns.RestoredHolds | Sources/ZRemoteCore/Client/DemoClient.swift:37-52 | restoring proper samples establishes it |
| DemoClient.DemoClient.SendMessage | Sources/ZRemoteCore/Client/DemoClient.swift:175-204 | the call makes the step of `Send`, and throws what `Refusal` says |
| DemoClient.DemoClient.BeginTurn | Sources/ZRemoteCore/Client/DemoClient.swift:206-250 | the messages, flags and stream of a new turn |
| DemoClient.DemoClient.DrainQueue | Sources/ZRemoteCore/Client/DemoClient.swift:348-354 | the head is taken off and handed to a new turn, or nothing happens |
| DemoClient.DemoClient.FinishTurn | Sources/ZRemoteCore/Client/DemoClient.swift:316-346 | the end of a turn, stopped or not |
| DemoClient.DemoClient.InterruptTurn | Sources/ZRemoteCore/Client/DemoClient.swift:289-294 | stopping pauses the queue and cancels the turn |
| DemoClient.DemoClient.RetryDelivery | Sources/ZRemoteCore/Client/DemoClient.swift:296-302 | the last user message is sent again |
| DemoClient.DemoClient.RespondInput | Sources/ZRemoteCore/Client/DemoClient.swift:304-314 | only the open question is answered, and the queue is looked at |
| DemoClient.DemoClient.SendQueuedNow | Sources/ZRemoteCore/Client/DemoClient.swift:356-372 | a row is steered into the running turn or starts one |
| DemoClient.DemoClient.MoveQueuedMessage | Sources/ZRemoteCore/Client/DemoClient.swift:374-383 | a row changes place within the queue |
| DemoClient.DemoClient.DeleteQueuedMessage | Sources/ZRemoteCore/Client/DemoClient.swift:385-392 | a row and its files leave the queue |
| DemoClient.DemoClient.BeginEdit | Sources/ZRemoteCore/Client/DemoClient.swift:394-406 | a lease is granted and its row blocked |
| DemoClient.DemoClient.RenewEdit | Sources/ZRemoteCore/Client/DemoClient.swift:408-415 | an unexpired lease is prolonged |
| DemoClient.DemoClient.CommitEdit | Sources/ZRemoteCore/Client/DemoClient.swift:417-431 | a commit sets the text, frees the row and looks at the queue |
| DemoClient.DemoClient.CloseSession | Sources/ZRemoteCore/Client/DemoClient.swift:107-113 | the loop gives up every lease of the session, in any order |
| DemoClient.DemoClient.CreateSession | Sources/ZRemoteCore/Client/DemoClient.swift:141-165 | an accepted session is new and empty |
| DemoClient.DemoClient.RestoreSamples | Sources/ZRemoteCore/Client/DemoClient.swift:37-52 | the samples replace everything |
| DemoClient.DemoClient.SignOut | Sources/ZRemoteCore/Client/DemoClient.swift:87-98 | signing out clears the peer |
| DemoClient.DemoClient.SetForeground | Sources/ZRemoteCore/Client/DemoClient.swift:467-473 | the sample's task pauses and resumes |
| DemoClient.DemoClient.ResumeTask | Sources/ZRemoteCore/Client/DemoClient.swift:235-249 | a task goes on to its next suspension |
| AdmissionRuns.OneBuild | scripts/run-local.py:178-246 | over all interleavings with crashes, provided nothing fails between starting a child and recording it, no two builds are alive |
| AdmissionRuns.GapDoubles | scripts/run-local.py:218-246 | if a runner dies or throws in that gap, the next one's poll and start put a second build beside the first |
| AdmissionRuns.TwoBuilds | scripts/run-local.py:218-246 | a run from the start, either way, after which two builds are alive |
| AdmissionRuns.QueuedOnce | scripts/run-local.py:178-194 | a live waiting runner is in the queue exactly once |
| AdmissionRuns.NoOvertaking | scripts/run-local.py:184-194 | whoever is admitted queued before every other live waiting runner |
| AdmissionRuns.OldestIsAdmitted | scripts/run-local.py:184-194 | the oldest live waiting runner is admitted by its next poll, with memory enough, once no live runner or build holds the slot |
| AdmissionRuns.RecordSafe | scripts/run-local.py:219-220 | a runner that records its child finds its own entry active |
| AdmissionRuns.SweepSafe | scripts/run-local.py:185-189 | clearing dead entries takes neither a live runner's ticket nor the slot of a live build |
| AdmissionRuns.LeaveSafe | scripts/run-local.py:240-246 | the `finally` clause takes the own ticket out of the queue and no other, and frees the slot exactly when it has the own number and no live child |
| AdmissionRuns.RunSafe | scripts/run-local.py:178-246 | every careful run keeps queue, slot, places and live builds in agreement |
| Admission.StateFile.Poll | scripts/run-local.py:184-194 | one locked poll |
| Admission.StateFile.Enqueue | scripts/run-local.py:178-179 | the ticket joins the end of the queue |
| Admission.StateFile.RecordChild | scripts/run-local.py:219-220 | the child is written into the active entry |
| Admission.StateFile.Leave | scripts/run-local.py:240-246 | the locked step of the `finally` clause |
| DraftSafety.RunInv | Sources/ZRemoteCore/AppModel.swift:533-579 | in every run, a submitted text that was not typed over and submitted files that were not removed stand in the draft slot of the running send until it returns, and the files in the composer are those added and neither removed nor sent nor overwritten by a created session, and those removed that creating a session brought back, each in one place |
| DraftSafety.StepInv | Sources/ZRemoteCore/AppModel.swift:533-593 | so does every single event: typing, files, navigation, account resets, the reading of preferences and each await |
| DraftSafety.NothingLost | Sources/ZRemoteCore/AppModel.swift:546-567 | nothing is overwritten in runs in which created sessions come with nothing written for them |
| DraftSafety.OtherTextSurvives | Sources/ZRemoteCore/AppModel.swift:533-579 | any text but the one sent survives success, failure, navigation, the reading of preferences, and the creation of sessions unless that puts a different text into its slot |
| DraftGenerations.AccountChangeCancels | Sources/ZRemoteCore/AppModel.swift:533-579 | a send begun before an account change ends without a trace: up to those sends, every run is one of a composer that cancels its sends at each account change and never hears of them again |
| DraftSafety.CreateInv | Sources/ZRemoteCore/AppModel.swift:546-567 | when a session is created the draft moves to it, or stays with what the user wrote since; just what stood in its slot is lost, and only removed submitted files can come back |
| DraftSafety.CreationOverwritesText | Sources/ZRemoteCore/AppModel.swift:551-565 | a text in the created session's slot survives exactly when it equals what is moved there: what stands in the composer for a new session if the user stayed and it has a draft, else what was submitted |
| DraftSafety.CreationOverwritesFile | Sources/ZRemoteCore/AppModel.swift:551-565 | and a file survives exactly when it stands elsewhere |
| DraftSafety.RemovedFileReturns | Sources/ZRemoteCore/AppModel.swift:551-565 | a submitted file that was taken off stands nowhere, and again in the created session exactly when the user has navigated since |
| DraftSafety.RemovedFileComesBack | Sources/ZRemoteCore/AppModel.swift:546-567 | a run in which a file is added, sent, taken off, and comes back |
| DraftSafety.TextOverwritten | Sources/ZRemoteCore/AppModel.swift:546-567 | a run in which the user opens the new session and types before `createSession` returns, and the text is lost |
| DraftSafety.ReadReturnsInv | Sources/ZRemoteCore/AppModel.swift:1254-1261 | drafts edited or deleted during the disk read win over the saved ones |
| DraftSafety.ReturnInv | Sources/ZRemoteCore/AppModel.swift:571-577 | a returned send clears exactly what was sent |
| ComposerDrafts.AppModel.BeginSend | Sources/ZRemoteCore/AppModel.swift:533-545 | what `send` captures before its first await |
| ComposerDrafts.AppModel.SessionCreated | Sources/ZRemoteCore/AppModel.swift:546-567 | the transfer of the draft after `createSession` |
| ComposerDrafts.AppModel.SessionOpened | Sources/ZRemoteCore/AppModel.swift:567-570 | the check after `openSession` |
| ComposerDrafts.AppModel.SendReturned | Sources/ZRemoteCore/AppModel.swift:571-577 | the clearing after `send` |
| ComposerDrafts.AppModel.SendThrew | Sources/ZRemoteCore/AppModel.swift:578-578 | a failure leaves every draft as it is |
| ComposerDrafts.AppModel.MergeRestored | Sources/ZRemoteCore/AppModel.swift:1254-1261 | the merge of restored and edited drafts |
| ComposerDrafts.AppModel.ResetAccount | Sources/ZRemoteCore/AppModel.swift:309-334 | an account change empties drafts and starts a generation |
| ComposerDrafts.AppModel.RemoveAttachments | Sources/ZRemoteCore/AppModel.swift:590-593 | the given attachments leave a slot |
| ComposerDrafts.AppModel.StoreDraft | Sources/ZRemoteCore/AppModel.swift:1335-1338 | a draft is set or removed and its slot counts as edited |
| Answers.AnswersOnce | Sources/ZRemoteCore/AppModel.swift:1060-1083 | in any run, an answer whose call has not failed is not sent again for its session until another input is published or the session leaves the workspace |
| Answers.OwnOutcomeOnly | Sources/ZRemoteCore/AppModel.swift:1070-1082 | an answer counts as submitted exactly when its own call has succeeded |
| Answers.OutKeepsRecord | Sources/ZRemoteCore/AppModel.swift:1060-1082 | an answer that is out stays out with the same record through anything but the failure of its own call, another input, a workspace without its session or an account change; outcomes of superseded attempts neither mark nor clear it |
| Answers.RunHolds | Sources/ZRemoteCore/AppModel.swift:355-382 | the records behind these hold in every run |
| Answers.AppModel.BeginAnswer | Sources/ZRemoteCore/AppModel.swift:1060-1068 | the guard and the record of a new attempt |
| Answers.AppModel.AnswerReturned | Sources/ZRemoteCore/AppModel.swift:1069-1074 | the token is checked before the attempt is marked |
| Answers.AppModel.AnswerThrew | Sources/ZRemoteCore/AppModel.swift:1075-1082 | the token is checked before the attempt is cleared |
| Answers.AppModel.ReceiveSession | Sources/ZRemoteCore/AppModel.swift:375-383 | a different published input clears the attempt |
| Answers.AppModel.ReceiveWorkspace | Sources/ZRemoteCore/AppModel.swift:355-356 | attempts of sessions that left are dropped, and the sign-in is that of the new workspace |
| UsageWarnings.MergedKeepsBest | Sources/ZRemoteCore/AccountUsage.swift:119-134 | a session has a warning exactly when a valid notice is about it; owner fixed by the first, and of that owner's notices the last with the greatest time |
| UsageWarnings.MergedIsOneEach | Sources/ZRemoteCore/AccountUsage.swift:119-134 | one valid warning per session and none dismissed |
| UsageWarnings.StagesAreOne | Sources/ZRemoteCore/AccountUsage.swift:119-134 | merging in stages, with dismissals in between, is merging at once |
| WarningStages.LateReadAgrees | Sources/ZRemoteCore/AppModel.swift:1283-1285 | merged the other way round, below notices read later, it is merging at once if and only if, for every session with notices of both kinds, the first two have the same owner, or the later ones of the first owner are all older than the kept one, or the newest of them is that notice itself |
| WarningStages.RunIsOneMerge | Sources/ZRemoteCore/AppModel.swift:1283-1285 | in every run of observations, dismissals and reads that meet this condition, the warnings are one merge of all notices, without what is dismissed by now |
| WarningStages.ReadIsOneMerge | Sources/ZRemoteCore/AppModel.swift:1283-1285 | after such a run a further read keeps that if and only if it meets the condition |
| WarningStages.LateReadRun | Sources/ZRemoteCore/AppModel.swift:1283-1285 | a run of two observations and a read after which the newest notice of the shown owner is lost |
| UsageWarnings.DismissedNeverReturns | Sources/ZRemoteCore/AppModel.swift:767-772 | a dismissed warning never returns, whatever is observed, dismissed and read later |
| UsageWarnings.MergeWarnings | Sources/ZRemoteCore/AccountUsage.swift:119-134 | the loop over notices computes the merge |
| UsageWarnings.Preferences.Observe | Sources/ZRemoteCore/AppModel.swift:888-890 | new observations are merged into the retained warnings |
| UsageWarnings.Preferences.Dismiss | Sources/ZRemoteCore/AppModel.swift:767-772 | the warning on show is removed and its session remembered |
| UsageWarnings.Preferences.MergeRestored | Sources/ZRemoteCore/AppModel.swift:1283-1285 | dismissals are united before the warnings are merged |
| TurnFooters.AppliedRows | Sources/ZRemoteCore/TranscriptMetadata.swift:89-129 | the returned rows are messages in their order, each with its own time and titles and the footer of its turn at the anchor; and a row with a footer is the last one returned of its turn |
| TurnFooters.AppliedKeeps | Sources/ZRemoteCore/TranscriptMetadata.swift:89-129 | a message is returned exactly when it has something to show or a footer |
| TurnFooters.FootersAt | Sources/ZRemoteCore/TranscriptMetadata.swift:107-127 | each turn gets the footer it would get alone, at its anchor, and no other row changes |
| TurnFooters.FooterIsLast | Sources/ZRemoteCore/TranscriptMetadata.swift:118-124 | a footer stands on a visible row that is not the user's, and no row of its turn shows below it |
| TurnFooters.FooterConditions | Sources/ZRemoteCore/TranscriptMetadata.swift:112-124 | a turn has a footer if and only if it is not the running one, does not stream, its last assistant row is complete and one of them is timed; the duration is that of the last timed one |
| TurnFooters.OriginsRise | Sources/ZRemoteCore/TranscriptMetadata.swift:128-128 | visible rows keep their order |
| TurnFooters.VisibleStays | Sources/ZRemoteCore/TranscriptMetadata.swift:128-128 | every row that shows is in the result |
| TurnFooters.Apply | Sources/ZRemoteCore/TranscriptMetadata.swift:89-129 | the loop over turns computes the rows |
| TranscriptActivity.AppendingKeepsSegments | Sources/ZRemoteCore/TranscriptActivity.swift:62-84 | appending parts keeps every earlier segment's id and parts; the last keeps its id and at most grows |
| TranscriptActivity.SegmentsHoldParts | Sources/ZRemoteCore/TranscriptActivity.swift:62-84 | the segments hold exactly the visible parts, in order |
| TranscriptActivity.OnlyLastLive | Sources/ZRemoteCore/TranscriptActivity.swift:62-84 | with distinct part ids only the last segment can be live |
| TranscriptActivity.LastIsLive | Sources/ZRemoteCore/TranscriptActivity.swift:62-84 | while the message streams a part that shows, the last segment holds it and is live |
| TranscriptActivity.ReadSegments | Sources/ZRemoteCore/TranscriptActivity.swift:62-84 | the loop with its open group computes the segments |

## Left out

- Views, gestures, haptics, audio, pickers and notifications: platform calls.
- `NativeClient` and the Rust core behind it, which is not part of this model.
- Keychain, file stores and JSON coding: stores are maps, and what is read from disk is a parameter.
- Unicode beyond code units and scalars: grapheme clusters, so a text whose first scalar combines with a diff marker, a
  space or a fence marker in front of it is not covered; replacement of invalid UTF-8.
- The JSON and percent-decoding inside `ReferenceLinks.decode`: it is a parameter.
- Overflow of `NSRange` arithmetic: offsets are unbounded integers.
- Workspace rows of the demo peer (titles, previews, unread flags, activities), its stored turn diffs and attachment
  bytes, and the published updates: they follow the session state that is modelled.
- What a new demo session needs (host, project, checkout) and what `canSend` asks for besides a draft and no running
  send: each is one boolean parameter.
- The byte limits on attachments in one draft and over all drafts.
- Real time: the demo peer's clock is moved by explicit steps, and task scheduling is any interleaving.
- The other users of `busy` in the app model, `signIn` among them; `busy` is that of `send`.
- `TranscriptMetadata.Cache.apply` and `retain`, activity summaries and duration labels: single map and string steps.
- Measuring memory, provenance hashing and how `alive` asks the system, in `run-local.py`.
- DemoTheorems.DrainsInOrder: assumes that no row is being edited and no call comes in between, as the source promises
  nothing about order otherwise.
- AdmissionRuns.OldestIsAdmitted: speaks of one poll; that the owner of the slot ends is up to its build.
- ReferenceRescan.EditRescans: compares edits after which the code ranges outside the touched references agree, as they do
  in text without code (`NoCodeAgrees`); an edit that opens a fence changes what every line behind it is.
- DemoWakeups.MoveCanStall: takes a peer whose replies have one word, so that one resumption ends the turn.
- PatchReader.Reader.Append: cuts a long line for display after 4,096 Unicode scalars, where Swift counts grapheme
  clusters.
- DemoClient.DemoClient.FinishTurn: leaves out the delivery label, the worked duration and the subagents of the turn.
- DemoClient.DemoClient.CreateSession: takes the guards about host, project and checkout as one boolean.
