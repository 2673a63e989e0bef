# The transcript-to-window pipeline, in Dafny

A recorded conversation arrives as numbered speech chunks. Each chunk is
transcribed by workers that may fail, be retried or never report; the useful
ones are cut into overlapping windows under token and duration limits, the
windows are read by a language model, and what the model returns is folded into
a ledger of meeting artifacts. This project models that pipeline for one
conversation in Dafny and proves what it keeps. `dafny verify dfyconfig.toml`
checks everything.

## The parts

| files | what they hold |
|---|---|
| `Text`, `Words`, `Transcript`, `PrintedText` | Python's string operations as far as they are used and what they keep; the `[n] text` printer, its three parsers, and what is printed |
| `Models`, `Windowing` | chunks, windows and statuses; the window builder, as a state machine and as the class that runs it |
| `WindowPartition`, `CloseReasons`, `WindowCore` | what one call of the builder owns, skips and repeats; why each window closes where it does; restarting the builder |
| `Store`, `Incremental`, `Lookups` | the stored documents, `close_ready_windows` as a function of them, and lists of chunks read number by number |
| `ForcedClose`, `FinalEffects`, `WindowOrder`, `SpokenLine`, `OnlineBatch`, `OnlineRun` | a final close and what it leaves behind, the order of stored windows, and online closing against one batch |
| `Finalization`, `FinalizeGate`, `LateTranscripts` | readiness and accounting, the gate to READY, and what late transcripts do to both |
| `Repository`, `Protocol`, `StepEffects`, `ConversationStore` | the conditional writes, every interleaving of them, what each step leaves in each document, and the classes that update the documents in place |
| `Artifacts`, `ArtifactLedger`, `ArtifactEffects`, `Coverage` | the ledger fold, what each decision makes of its target, and the repair of what the final result leaves out |
| `SemanticInput`, `Evidence`, `Citations`, `Threads`, `ThreadContents`, `TaskCoverage`, `AddedUnits` | which chunks a model reads, how its answers are grounded in them, which lines they cite, and what its labels become |
| `Segmentation`, `ChatPaging`, `Base64Url` | transcript segments, key-cursor paging, and unpadded Base64url |

Code that changes things step by step is a class or a method with loops
(`Windowing.WindowBuilder`, `ConversationStore.Documents`,
`ArtifactLedger.WorkingList`, `Segmentation.Segmenter`), each proved equal to a
function of its inputs or of the old state; the properties are lemmas about
those functions.

## Main results

1. *Exactly once.* Whatever the chunks, holes and overlap, the windows of one
   call own or skip each consumed number once; the consumed chunks are a prefix
   of the reachable ones, and all of them in a final call that reaches anything
   useful (`BuildPartitions`, `ListedExactlyOnce`, `WindowAt`). Each window closes
   for the reason it records, measured on the chunks themselves, and not earlier;
   what stays open was not to be closed (`WindowsCloseForReasons`). Nothing said is
   lost in print but what a chunk repeats of the line before it
   (`EverythingIsPrinted`).
2. *Online equals batch.* Closing after every arrival, each time from what is
   stored, while workers grant, finish and fail windows in between, stores the
   windows that one call on all chunks stores, with the same bounds, text,
   tokens, duration and overlap, and gives every number the same one
   (`OnlineEqualsBatch`). It needs sparse closing off, a positive cost for every
   line, and a cost that does not depend on the words removed because the
   predecessor said them (`NoEchoIsStable` gives a textual condition for that);
   and what is settled must stay: a completed chunk, or one that failed for good,
   is not written again. Without the last condition it is false: every chunk that
   failed for good, was read by a close and is transcribed after all is stranded
   (`LateTranscriptStrands`), no later close takes it (`StrandedStays`), and the
   result differs from every batch that does (`StrandedIsNotBatch`); in the run of
   `OnlineIsNotBatch` this is so exactly when the lines reach the token target.
   Every new window is asked for, unless it is kept for the final pass
   (`NewWindowsAreStored`).
3. *Drain.* When readiness reports nothing unresolved, a useful chunk without
   window and exclusion is still so after the final close if and only if it was
   stranded (completed after a close had marked it), or it comes behind the last
   window or behind a stranded chunk (`FinalCloseLeaves`); any other one ends up
   in a new window that spans it (`FinalCloseAssigns`). So the claim that the
   final close leaves no useful chunk out is false, and `FinalClosePlacesAll` says
   exactly when it holds. The gate itself counts only chunks that are still
   unprocessed, which are gone exactly when none of them was cut off
   (`FinalCloseDrains`): a stranded chunk can keep it shut for a later one
   (`RetriedChunkStrands`), as can a chunk that arrives behind the last window
   (`BehindTheWindows`), but the stranded chunk itself is let through, and is in
   no window of the READY conversation (`ReadyLeavesStranded`,
   `LateChunkIsUnplaced`). `ReadyExactly` says when
   `finalize` moves the conversation to READY; with the meeting pipeline this
   comes down to the chunks and windows stored before the call (`DeferredReady`).
   Any other call says by its status what it waits for (`StatusAfter`, `OutcomeIs`)
   and has queued whatever still has to be extracted (`NotPassedQueues`).
4. *Interleavings.* Over every run of reads and conditional writes, completed
   chunks stay completed, `completedTranscriptChunkCount` plus the increments
   still to come is exact (`CountersOverRuns`). `failedTranscriptChunkCount` is
   not: it exceeds the chunks that ever failed by exactly the failures that are
   written for a chunk that failed before, by a worker that read another status
   than FAILED, and is exact if and only if there is none (`FailureCounterIsExact`).
   One worker that takes a failed chunk up again is enough (`RetryCountedTwice`),
   and so are two that read the same pending chunk (`FailureCountedTwice`). A
   chunk's window never changes, attempts are bounded by releases, and the
   statuses follow the table. What a step leaves in every document is given by a
   definition of its own (`ChunksAreWritten`, `WindowsAreWritten`).
5. *Ledger.* For arbitrary decisions, artifacts keep their places, change only
   when named, lose no source, and never lose confidence; exactly the incoming
   ones that are neither skipped nor absorbed are appended, once each and in
   order (`LedgerOriginates`). The last decision about an artifact is what the
   result shows of it, field by field: completed, cancelled, superseded, updated or
   related as decided, with what was there before in its history
   (`LastDecisionShows`). Evidence is the exception: merging keeps it exactly when
   it has at most eight distinct spans (`EvidenceIsKept`, `NineSpansLoseOne`).
6. *Grounding.* A unit is kept if and only if it says something and something it
   cites does, and it cites exactly the lines its numbers, its spans or, failing
   these, its meaning point at (`KeptCitesExactly`, `KeptExactly`); a second pass
   changes nothing but the quality fields. Every line a label speaks of is in a
   thread with the label's roles (`LabelIsHeld`). That every line of a label that
   asks for something is cited in the end is false: the label can lose its line to
   another one of the same key, and its thread then has neither a topic nor a
   meaning to act on (`RequestIsLost`). `LabelsAreCovered` says exactly which lines
   are cited, and `ActionLabelIsCovered` that a topic is enough.
7. *Segments.* The lines of the segments say all of every chunk: the sentences and
   the white space between them make up the text, and every cut is behind an end
   mark (`SegmentsSayAll`, `SentencesMakeUp`).

## What is represented how

- A chunk's two stored texts are one `text`, the stripped value every reader
  derives (a transcript is stripped when it is stored here); an evidence span
  strips its text when it is built (services/conversation/models.py:282-288), so
  quoted lines are stripped too. A chunk's duration is the derived
  `max(0, endTimeMs or 0)`. A chunk is permanently failed by a flag that stands
  for its failure type, last error and attempts; the wait for missing sequences
  is a flag of the conversation.
- Token estimation, case folding of one character, key normalisation and the
  word-overlap test are parameters. Characters are Unicode code points, blanks
  are Python's, and the digits of a line marker are the ASCII ones.
- `Built.runningTokens` and `Segment.lines` record values the program has at
  that moment but does not store, so that the limits can be stated.
- Chunks are one document per number in ascending order. Windows are listed by
  first number, ties in creation order; a window's identifier is its position
  in creation order, for one processing version.
- `parsed_semantic_sequences` and `_parse_transcript` read a line in the same
  way and share one function here. The two numbers a walk starts and ends at are
  taken as minimum and maximum instead of by sorting.
- Settings, clocks (as sets of stale documents) and everything a language model
  returns are arbitrary inputs. Lease checks and fenced writes succeed.
- Absent optional texts of artifacts are empty strings, confidences are reals,
  and a session cursor is the pair it decodes to.
- `_b64url_decode` reads the standard alphabet although its counterpart writes
  the URL-safe one of RFC 4648, section 5; the model follows the code.

## Model

| member | source | states |
|---|---|---|
| `Text.NormalizeChunk` | services/conversation/transcript.py:40-53 | the loop removes the longest opening of 8 to 80 characters that occurs in the last 120 characters of the previous text |
| `Text.EchoSizeIsLargest` | services/conversation/transcript.py:47-51 | the removed opening does occur there, and no longer one within the bound does |
| `Text.NormalizedText` | services/conversation/transcript.py:40-53 | what is left is a suffix of the blank-collapsed text, with single inner blanks and none at its ends |
| `Text.EchoMeans` | services/conversation/transcript.py:46-51 | an opening counts as repeated exactly when it has 8 to 80 characters and reads, letter by letter, like a place within the last 120 characters of the previous text |
| `Text.OpeningIsRemoved` | services/conversation/transcript.py:47-53 | what is left follows the removed opening and all separators behind it, and nothing else is taken |
| `Words.StripTakesEnds` | services/conversation/transcript.py:42 | stripping takes white space off both ends and nothing else |
| `Words.CollapseKeepsWords` | services/conversation/transcript.py:42 | collapsing keeps every character that is no white space, in order and parted where it was, with single blanks between |
| `Text.PrintedLineParses` | services/conversation/semantic_input.py:46-56 | a printed line is read back as its number and text by both line parsers |
| `Transcript.PrintWindow` | services/conversation/windowing.py:260-272 | the printing loop gives the stripped join of the printed lines |
| `Transcript.ParseSemanticSequences` | services/conversation/semantic_input.py:46-56 | the parsing loop keeps the last text of every number that has one |
| `Transcript.ReadSequenceMap` | services/conversation/extraction_contract.py:937-947 | the marker loop keeps the last text of every integer marker |
| `PrintedText.LastIsKept` | services/conversation/extraction_contract.py:937-947 | of every number that lines name, the last line that names it is kept |
| `PrintedText.SemanticLineMeans` | services/conversation/semantic_input.py:46-56 | a line counts if it has a number and words behind it, and says just these words |
| `Transcript.PrintedLinesQuote` | services/conversation/windowing.py:260-272 | every printed line belongs to a useful chunk and is a suffix of its collapsed text |
| `PrintedText.NormalizedIsLeft` | services/conversation/transcript.py:41-53 | what is kept of a chunk is its collapsed text, less the longest opening the previous text repeats |
| `PrintedText.EverythingIsPrinted` | services/conversation/windowing.py:260-272 | chunk by chunk, the printed lines say what is left of each chunk after the line before it; a chunk has no line only if nothing is left |
| `Transcript.PrintThenParse` | services/conversation/windowing.py:260-272 | both parsers return exactly the map of the printed lines, whatever the chunks say |
| `Transcript.ParsedTextQuotes` | services/conversation/semantic_input.py:46-56 | each parsed text is a suffix of the collapsed text of a useful chunk with that number |
| `Transcript.PrintedLineIsFound` | services/conversation/extraction_contract.py:937-947 | with ascending numbers no printed line is overwritten: each is found under its number |
| `Windowing.TakeTail` | services/conversation/windowing.py:275-286 | the backward loop returns the specified tail |
| `Windowing.TailIsShortest` | services/conversation/windowing.py:275-286 | the tail is the shortest suffix that reaches the token budget, or everything |
| `Windowing.ReachablePrefix` | services/conversation/windowing.py:231-253 | the walk returns the chunks before the first number that is neither present nor skippable |
| `Windowing.ReachableAscends` | services/conversation/windowing.py:231-253 | what the walk returns is ascending and taken from the chunks |
| `Lookups.ReachableFind` | services/conversation/windowing.py:231-253 | the walk returns a chunk exactly when every number before it, from the first chunk on, is present or skippable |
| `Windowing.WindowBuilder.FlushCurrent` | services/conversation/windowing.py:86-146 | flush: nothing useful clears the state, nothing owned leaves it, else one window is emitted and the state restarts from the tail |
| `Windowing.WindowBuilder.EmitWindow` | services/conversation/windowing.py:97-146 | the emitted record and the whole restarted state |
| `Windowing.WindowBuilder.Accept` | services/conversation/windowing.py:148-194 | one round of the loop, with the four reasons to close in their order |
| `Windowing.WindowBuilder.AcceptAll` | services/conversation/windowing.py:148-194 | the loop over all reachable chunks |
| `Windowing.WindowBuilder.Close` | services/conversation/windowing.py:196-211 | the end of a call: trailing empties, the final or token close, and the sparse close with its own comparison |
| `Windowing.BuildReadyWindows` | services/conversation/windowing.py:57-212 | the call returns the windows of the specification |
| `WindowPartition.BuildPartitions` | services/conversation/windowing.py:57-212 | the windows take consecutive segments that form a prefix of the reachable chunks, all of them in a final call with something useful; each record, list and limit is that of its segment |
| `WindowPartition.ListedExactlyOnce` | services/conversation/windowing.py:97-138 | owned and skipped numbers together are the consumed numbers, with multiplicity |
| `WindowPartition.ListedOnce` | services/conversation/windowing.py:231-253 | a number of an ascending list is listed once |
| `WindowPartition.WindowAt` | services/conversation/windowing.py:106-138 | window i has index start + i, lists the overlap and then what it owns, records the exact durations and the tokens of its text, and stays within target and duration limit when it owns two or more chunks |
| `WindowPartition.OverlapIsPreviousTail` | services/conversation/windowing.py:99-146 | each list of numbers starts with a tail of the previous one and goes on with the owned numbers; nothing is repeated after a final window |
| `CloseReasons.WindowsCloseForReasons` | services/conversation/windowing.py:148-211 | for every window, the tokens counted line by line, the spoken and the whole time with the chunk that follows it meet its recorded reason and none that goes before; they met none of the sparse reason before its last chunk; a window at the end is final, full or sparse as recorded; what is left open is short of all that |
| `WindowCore.RestartIsTransparent` | services/conversation/windowing.py:148-211 | settling, forgetting all but the stored windows and replaying gives what one uninterrupted run gives |
| `WindowCore.BuildIsCore` | services/conversation/windowing.py:57-212 | a call that is not final owns what the two-list core owns and hands on its overlap |
| `WindowCore.NoEchoIsStable` | services/conversation/transcript.py:40-53 | when no opening of a chunk occurs in its predecessor, its line costs the same after any printed form of that predecessor |
| `ForcedClose.ForcedCloseTakes` | services/conversation/incremental.py:56-273 | a final close windows exactly the waiting chunks its walk reaches |
| `ForcedClose.CloseOnlyMarks` | services/conversation/incremental.py:56-273 | a close never changes a transcript, and marks only chunks that are unprocessed |
| `ForcedClose.NothingNewWaits` | services/conversation/repository.py:416-424 | no close makes a chunk wait |
| `WindowOrder.ChainedInOrder` | services/conversation/windowing.py:106-146 | the windows of one call start in order, end strictly later each time, and repeat only chunks inside the last one |
| `WindowOrder.CloseKeepsOrder` | services/conversation/incremental.py:167-190 | a close appends its windows after the stored ones, which it leaves as they are, and keeps them in order |
| `SpokenLine.LineGrows` | services/conversation/incremental.py:81-106 | when settled transcripts stay, the line a close can use only grows at its end |
| `OnlineRun.CallOnline` | services/conversation/incremental.py:56-273 | after a close that is not final the stored windows are those of the core run over the whole line, in bounds, text, tokens, duration and overlap |
| `OnlineRun.RunOnline` | services/conversation/incremental.py:56-273 | so after every call of every run of calls and arrivals in which what is settled stays; the state of the windows may change in between |
| `OnlineRun.OnlineEqualsBatch` | services/conversation/incremental.py:56-273 | the stored windows, except for close reason and what counts empty chunks, and the window of every number equal those of one call on the same transcripts with nothing windowed |
| `Finalization.MissingAre` | services/conversation/transcript.py:171-188 | the missing numbers are those of the expected range that are not present |
| `Finalization.AccountingIsConserved` | services/conversation/finalization.py:294-361 | terminal plus unresolved sequences are the expected ones plus the chunks outside the range; nothing is unresolved exactly when nothing is open |
| `Finalization.FinalCloseDrains` | services/conversation/repository.py:416-424 | with nothing unresolved, no unprocessed useful chunk is left after the final close if and only if each of them follows the last window with no stranded chunk between |
| `FinalizeGate.ReadyExactly` | services/conversation/finalization.py:35-218 | a call makes the conversation READY if and only if its status may move there, nothing is unresolved, and nothing is left to do after the close |
| `FinalizeGate.AllDoneMeans` | services/conversation/finalization.py:90-171 | nothing left to do means: no useful chunk is unprocessed, no window blocks, none lost its artifacts |
| `FinalizeGate.ReadyIsDrained` | services/conversation/finalization.py:80-135 | the first of these, said of the unprocessed chunks before the call |
| `FinalizeGate.ReadyWithoutWindows` | services/conversation/finalization.py:173-196 | without incremental processing, READY if and only if every useful chunk has a window or an exclusion |
| `FinalizeGate.OutcomeIs` | services/conversation/finalization.py:76-218 | which of the three ends a call comes to: waiting chunks or blocking windows, lost artifacts, or neither |
| `FinalizeGate.NotPassedQueues` | services/conversation/finalization.py:102-166 | every window that still has to be extracted ends up queued, or else every one that lost its artifacts is failed and queued; no other window changes but those taken back |
| `FinalizeGate.UnresolvedTakesBack` | services/conversation/finalization.py:53-75 | with something unresolved only the stale transcriptions go back to pending and the status moves to waiting, if it may |
| `FinalizeGate.SettledIsLeft` | services/conversation/finalization.py:35-49 | a conversation that is on its way or published is left as it is |
| `FinalizeGate.StatusAfter` | services/conversation/finalization.py:53-218 | any other call moves to the status of its outcome if the table lets it, and stays otherwise |
| `FinalEffects.FinalCloseAssigns` | services/conversation/incremental.py:167-190 | every waiting chunk that a final close reaches is claimed by a new window whose first and last number enclose it, and nothing else about it changes |
| `FinalEffects.EmptiesAreMarked` | services/conversation/incremental.py:288-299 | a final close that no hole blocks marks every empty chunk it has read as empty |
| `FinalEffects.FailuresAreMarked` | services/conversation/incremental.py:110-122 | a call that is not idle marks every failed chunk that may be skipped |
| `FinalEffects.DeferredCloseRetains` | services/conversation/incremental.py:192-214 | with the meeting pipeline, or for an extension, every window of a final close is completed without extraction |
| `FinalEffects.NewWindowsAreStored` | services/conversation/incremental.py:184-243 | every new window of a close is pending, queued and not yet attempted, unless it is final, closed by force or deferred: then it is completed without extraction and never queued |
| `FinalEffects.StoredAgain` | services/conversation/incremental.py:184-243 | a window that is stored again keeps its document and its attempts, and is completed, queued or left by its own state |
| `FinalEffects.CoveredCloseIsIdle` | services/conversation/incremental.py:95-115 | a final close is skipped, and changes nothing, exactly when something useful has been read and the stored windows span all of it |
| `FinalEffects.FinalCloseLeaves` | services/conversation/incremental.py:56-273 | with nothing unresolved, a useful chunk has neither window nor exclusion after the final close if and only if it had neither before and was stranded or cut off |
| `FinalEffects.FinalClosePlacesAll` | services/conversation/finalization.py:80-89 | so the final close leaves no useful chunk without window and exclusion if and only if none of them is stranded or cut off |
| `FinalEffects.ReadyLeavesStranded` | services/conversation/finalization.py:90-171 | in a conversation that a call makes READY, the useful chunks without window and exclusion are exactly the stranded ones that had neither before |
| `FinalEffects.DeferredReady` | services/conversation/finalization.py:80-171 | nothing is left to do if and only if every waiting chunk can be drained and the windows stored before are done |
| `LateTranscripts.RetriedChunkStrands` | services/conversation/repository.py:204-252 | a concrete run in which a late transcription leaves a later chunk out of the final close |
| `LateTranscripts.BehindTheWindows` | services/conversation/incremental.py:81-89 | a chunk behind the last window is left out by every final close |
| `LateTranscripts.LateChunkIsUnplaced` | services/conversation/finalization.py:90-171 | a concrete run in which the conversation becomes READY although a useful chunk is in no window and not excluded |
| `LateTranscripts.OnlyLateBreaks` | services/conversation/repository.py:204-252 | in a concrete run only a late transcription is not an arrival |
| `LateTranscripts.LateTranscriptStrands` | services/conversation/repository.py:204-252 | a chunk that failed for good and that a close has read is stranded, without window and exclusion, when it is transcribed after all |
| `LateTranscripts.StrandedIsNotBatch` | services/conversation/incremental.py:56-273 | closing online differs from any batch that puts a stranded chunk into a window |
| `LateTranscripts.OnlineIsNotBatch` | services/conversation/incremental.py:133-150 | in that run closing online stores no window, one call on all chunks stores one if and only if the lines reach the token target, and the two agree if and only if they do not |
| `Protocol.ChunkEvolves` | services/conversation/repository.py:204-345 | one step of any worker changes a chunk only as the conditional writes allow |
| `Protocol.ChunksLast` | services/conversation/repository.py:574-589 | over any run a completed transcript stays with its text, and a window once set stays |
| `Protocol.CountersOverRuns` | services/conversation/repository.py:204-345 | completed counter plus pending increments equals the completed chunks; failed counter plus pending increments equals the chunks that ever failed, at least those that are failed, plus the failures counted again |
| `Protocol.FailureCounterIsExact` | services/conversation/repository.py:296-344 | the failed counter plus pending increments is exact if and only if no step of the run writes a failure of a chunk that failed before, with another status read than FAILED |
| `Protocol.FailureCountedTwice` | services/conversation/repository.py:284-345 | two workers that read the same pending chunk count its failure twice |
| `Protocol.RetryCountedTwice` | services/conversation/repository.py:266-345 | one worker that takes a failed chunk up again counts its failure twice |
| `Protocol.FailureFollows` | services/conversation/repository.py:919-934 | the direct failure write is a move of the table, from every status but COMPLETED |
| `Protocol.StatusOverRuns` | services/conversation/models.py:51-119 | the statuses of a run are a path in the table, and COMPLETED is never left |
| `Protocol.AttemptsOverRuns` | services/conversation/repository.py:608-674 | a window is granted at most once more than it was failed or reclaimed |
| `Protocol.InitialHolds` | services/conversation/models.py:51-119 | a new conversation meets what the lemmas about runs start from |
| `StepEffects.ChunksAreWritten` | services/conversation/repository.py:183-596 | every step leaves in every chunk document what a definition by document says: which fields, under which filter, and nothing else |
| `StepEffects.WindowsAreWritten` | services/conversation/repository.py:550-680 | the same of every window document; a window appears only if none has its first and last number |
| `StepEffects.ConversationIsWritten` | services/conversation/repository.py:54-81 | the same of the status and the two counters |
| `StepEffects.WorkersGoOn` | services/conversation/repository.py:204-345 | what a worker goes on with after each of its steps, and that no step moves another worker |
| `StepEffects.MovesByTarget` | services/conversation/models.py:51-119 | the table read by target: from which statuses each one may be entered |
| `StepEffects.EnteredFrom` | services/conversation/models.py:51-119 | over any run, COMPLETED is entered only from FINALIZING, VALIDATING or PARTIAL, and no status from one it may not come from |
| `ConversationStore.Documents.RecordAudioChunk` | services/conversation/repository.py:183-201 | a prepared transcript is inserted unless its number is taken |
| `ConversationStore.Documents.CompleteTranscriptChunk` | services/conversation/repository.py:204-252 | both writes, or none when the chunk is missing or completed |
| `ConversationStore.Documents.MarkTranscriptChunkProcessing` | services/conversation/repository.py:266-282 | the write happens exactly for a chunk that is neither completed nor failed for good |
| `ConversationStore.Documents.FailTranscriptChunk` | services/conversation/repository.py:284-345 | the early returns, the write and the counter |
| `ConversationStore.Documents.MarkTranscriptsExcluded` | services/conversation/repository.py:434-458 | exactly the listed unprocessed chunks are marked |
| `ConversationStore.Documents.ClaimTranscripts` | services/conversation/repository.py:574-589 | exactly the listed unprocessed chunks are claimed |
| `ConversationStore.Documents.ReclaimStaleSttChunks` | services/conversation/repository.py:507-539 | exactly the stale chunks in processing return to pending |
| `ConversationStore.Documents.CreateConversationWindow` | services/conversation/repository.py:550-596 | the upsert by first and last number, the claims and the exclusions |
| `ConversationStore.Documents.MarkWindowProcessing` | services/conversation/repository.py:608-629 | the grant, only from pending, failed or retrying, with its attempt |
| `ConversationStore.Documents.CompleteWindow` | services/conversation/repository.py:631-662 | the whole window after completion |
| `ConversationStore.Documents.FailWindow` | services/conversation/repository.py:664-674 | the whole window after failure |
| `ConversationStore.Documents.MarkWindowQueued` | services/conversation/repository.py:676-680 | the whole window after queueing |
| `ConversationStore.Documents.ReclaimStaleProcessingWindows` | services/conversation/repository.py:473-505 | exactly the stale windows in processing return to pending, no longer queued |
| `ConversationStore.Documents.Transition` | services/conversation/repository.py:54-81 | the move happens exactly when the table allows it |
| `ConversationStore.Documents.MarkConversationFailed` | services/conversation/repository.py:919-934 | every status but COMPLETED becomes FAILED |
| `ConversationStore.IncrementalProcessor.StoreWindow` | services/conversation/incremental.py:184-243 | a built window is stored, and completed without extraction, queued, or left |
| `ConversationStore.IncrementalProcessor.CloseReadyWindows` | services/conversation/incremental.py:56-310 | the call changes the documents as the specification of a close says |
| `ConversationStore.IncrementalProcessor.CloseRest` | services/conversation/incremental.py:133-302 | the hole, the windows and the leftover empty chunks |
| `ConversationStore.FinalizationCoordinator.MoveSafely` | services/conversation/finalization.py:271-287 | the guarded transition |
| `ConversationStore.FinalizationCoordinator.PublishIncomplete` | services/conversation/finalization.py:102-124 | exactly the blocking windows that should be published are queued |
| `ConversationStore.FinalizationCoordinator.ReopenGaps` | services/conversation/finalization.py:147-166 | exactly the completed windows without artifacts are failed and queued |
| `ConversationStore.FinalizationCoordinator.FinalizeConversation` | services/conversation/finalization.py:35-218 | the call changes the documents, and ends, as the specification of the gate says |
| `ArtifactLedger.MergedEvidence` | services/conversation/artifact_resolver.py:422-431 | the merging loop keeps the first span of every key, at most eight |
| `ArtifactLedger.EvidenceIsKept` | services/conversation/artifact_resolver.py:422-431 | no distinct span is dropped if and only if there are at most eight |
| `ArtifactLedger.NineSpansLoseOne` | services/conversation/artifact_resolver.py:422-431 | nine spans with different first numbers lose one |
| `ArtifactLedger.SortedMembers` | services/conversation/artifact_resolver.py:190 | the merged source numbers are those of both artifacts |
| `ArtifactLedger.SortedAscends` | services/conversation/artifact_resolver.py:190 | and they are ascending, each once |
| `ArtifactLedger.WorkingList.PutBack` | services/conversation/artifact_resolver.py:455-460 | the first artifact with the identifier is replaced, else the artifact is appended |
| `ArtifactLedger.WorkingList.Resolves` | services/conversation/artifact_resolver.py:177-259 | what is returned and what is written into the list for every kind of resolution, a cancellation first |
| `ArtifactLedger.WorkingList.TakeIn` | services/conversation/artifact_resolver.py:145-167 | one round of the fold |
| `ArtifactLedger.ApplyLlmDecisions` | services/conversation/artifact_resolver.py:137-168 | the call returns the fold of the last decision for every index |
| `ArtifactLedger.ResolutionApplies` | services/conversation/artifact_resolver.py:177-259 | the incoming artifact is added, or its target absorbs its sources, or both are kept; the target keeps its identity and confidence and at most eight entries of history |
| `ArtifactLedger.LedgerOriginates` | services/conversation/artifact_resolver.py:137-259 | the identifiers of the result are the existing ones at their positions and then, once each and in order, those of the incoming artifacts that join: without a target unless the action needs one, or beside a target they supersede or are related to and do not cancel |
| `ArtifactLedger.ExistingDevelop` | services/conversation/artifact_resolver.py:137-168 | an existing artifact is unchanged unless a decision names it, its confidence never drops, its history stays within eight |
| `ArtifactLedger.SourcesAreConserved` | services/conversation/artifact_resolver.py:137-168 | the cited sources are those of the existing artifacts and of the incoming ones that are not skipped |
| `ArtifactEffects.MergedBoth` | services/conversation/artifact_resolver.py:422-431 | merged evidence is the spans of both, in order, the first of those with the same numbers and the same first 80 characters, and the first eight of them |
| `ArtifactEffects.VerdictIsLast` | services/conversation/artifact_resolver.py:137-168 | the decision that counts for an incoming artifact is the last one about it |
| `ArtifactEffects.EachTakesEffect` | services/conversation/artifact_resolver.py:137-259 | each decision makes of the list before it what its action says: the target completed, cancelled, superseded, updated or related, field by field, with its entry in the history; the incoming artifact joins or is absorbed; all else stays |
| `ArtifactEffects.LastDecisionShows` | services/conversation/artifact_resolver.py:137-259 | in the result, an artifact is what the last decision about it made of it |
| `ArtifactEffects.DuplicateTakesEffect` | services/conversation/artifact_resolver.py:177-259 | a duplicate only adds its sources and is noted in the history |
| `SemanticInput.CheckpointOwns` | services/conversation/semantic_input.py:310-338 | a number is owned exactly when a completed checkpoint with a result spans it |
| `SemanticInput.AssembleUseful` | services/conversation/semantic_input.py:95-158 | the sorting, the filtering loop, the counts and the flag are those of the specification |
| `SemanticInput.AssemblyIsTheWantedSet` | services/conversation/semantic_input.py:112-141 | the useful rows are exactly the wanted numbers, ascending and once each, in any order of reading; the others are counted as rejected |
| `SemanticInput.FailsOnlyOnBadNumbers` | services/conversation/semantic_input.py:149-158 | the failure flag is set if and only if nothing is wanted and an otherwise eligible row has a number that does not convert |
| `SemanticInput.RejectedForReasons` | services/conversation/semantic_input.py:112-141 | every row that is not read is counted under the first reason that applies, said of its fields and of the rows before it |
| `SemanticInput.AssemblyCounts` | services/conversation/semantic_input.py:95-158 | so of the whole assembly; a number is read if and only if some row asked for has it, completed and not blank |
| `Evidence.HydrateAndValidate` | services/conversation/extraction_contract.py:164-199 | the loop keeps the specified units; kept and rejected make up the input |
| `Evidence.KeptAreSelected` | services/conversation/extraction_contract.py:164-199 | each kept unit is the rewritten unit at its position |
| `Evidence.PositionsRise` | services/conversation/extraction_contract.py:164-199 | those positions ascend |
| `Evidence.PositionOf` | services/conversation/extraction_contract.py:164-199 | and are exactly those of the grounded units |
| `Evidence.KeptCite` | services/conversation/extraction_contract.py:752-775 | a kept unit cites a non-empty ascending list of transcript lines and quotes exactly those that are not blank, at least one |
| `Evidence.SecondPass` | services/conversation/extraction_contract.py:752-803 | checking the kept units again rejects none and changes only the quality fields |
| `Citations.KeptCitesExactly` | services/conversation/extraction_contract.py:752-812 | a kept unit cites a line if and only if one of its numbers is it, one of its spans covers it, a span that covers no line has a text that line supports, or, when none of these gives a line, its meaning is supported by it; the rest of the unit stays, but for what no cited line says |
| `Citations.KeptExactly` | services/conversation/extraction_contract.py:752-775 | a unit is kept if and only if its meaning is not blank and one of those lines says something |
| `Threads.GroupTurns` | services/conversation/semantic_reconstruction.py:197-208 | the grouping loop |
| `Threads.ReconstructedFrom` | services/conversation/semantic_reconstruction.py:173-208 | whatever is labelled, a thread holds only lines of the transcript |
| `Threads.TurnsAreKept` | services/conversation/semantic_reconstruction.py:197-208 | every turn is in the thread of its key, with its number and roles |
| `ThreadContents.TurnsAreGiven` | services/conversation/semantic_reconstruction.py:173-194 | the turns are exactly those the labels with a role and a meaning give of transcript lines, in the order by number, topic and meaning |
| `ThreadContents.KeysAre` | services/conversation/semantic_reconstruction.py:197-201 | named turns stand together by their normalised name, unnamed ones by their line |
| `ThreadContents.ThreadIsOfKey` | services/conversation/semantic_reconstruction.py:197-208 | the thread of a key holds the first turn of every line of that key, all their roles and their first topic |
| `ThreadContents.ThreadsAre` | services/conversation/semantic_reconstruction.py:173-208 | every reconstructed thread is that of some key |
| `ThreadContents.LabelIsHeld` | services/conversation/semantic_reconstruction.py:173-208 | every line a label with a role and a meaning names is in a thread that has the label's roles |
| `TaskCoverage.MergeUncoveredActionUnits` | services/conversation/task_coverage.py:48-96 | the two loops and the check of the added units |
| `TaskCoverage.ActionThreadsAreCovered` | services/conversation/task_coverage.py:48-96 | every number of every action thread that says something is cited by a returned unit |
| `TaskCoverage.SecondMerge` | services/conversation/task_coverage.py:48-96 | a second call adds nothing |
| `TaskCoverage.PrintedThreadsAreCovered` | services/conversation/task_coverage.py:48-96 | both hold for threads reconstructed from any printed transcript with any labels |
| `TaskCoverage.CoveredExactly` | services/conversation/task_coverage.py:48-96 | after the merge a line is cited if and only if it was before or a speaking action thread has it |
| `TaskCoverage.LabelsAreCovered` | services/conversation/task_coverage.py:48-96 | said of the labels: a line is cited if and only if a given unit cites it or the turns of its key ask for something and have a topic, or an action turn that is the first of its line |
| `TaskCoverage.ActionLabelIsCovered` | services/conversation/task_coverage.py:48-96 | every line of a label that asks for something and has a topic is cited |
| `TaskCoverage.RequestIsLost` | services/conversation/task_coverage.py:48-96 | a request without a topic, whose line a fact of the same key takes first, is not cited |
| `AddedUnits.AddedUnitIs` | services/conversation/task_coverage.py:60-96 | each added unit says what some action thread with an uncited line says: its key or least number, the first kind of its roles, the first thing it asks for or its topic; the given units stay |
| `AddedUnits.CoveredAre` | services/conversation/task_coverage.py:48-58 | a line counts as cited when a unit has its number or a span over it |
| `Coverage.ArtifactsToResult` | services/conversation/artifacts.py:137-184 | the conversion loop |
| `Coverage.CarriedByKind` | services/conversation/artifacts.py:137-184 | each list of the result holds the shown artifacts of its kinds, in their order, items only with evidence |
| `Coverage.UniteByTitle` | services/conversation/coverage.py:184-193 | the union loop |
| `Coverage.UnionRepresents` | services/conversation/coverage.py:184-193 | a union represents a title exactly when one of its parts does |
| `Coverage.UnionAddsNew` | services/conversation/coverage.py:184-193 | the union is what was there and, in order, the items whose title neither the result nor an earlier item has |
| `Coverage.UnionAddsNewStrings` | services/conversation/coverage.py:196-205 | the same of facts and questions, blank ones left out |
| `Coverage.RepairAdds` | services/conversation/coverage.py:87-106 | what the repair adds to each of the six lists, and that summary and topics stay |
| `Coverage.SignalIs` | services/conversation/coverage.py:36-84 | the counts are those of the shown artifacts with a title, and the names the first forty the result does not say |
| `Coverage.RepairCloses` | services/conversation/coverage.py:87-106 | when every artifact has evidence, the repaired result represents all meaningful artifacts if and only if no title normalises to nothing |
| `Coverage.RepairKeeps` | services/conversation/coverage.py:87-106 | the repair takes nothing out of the result |
| `Coverage.RepairClosesExactly` | services/conversation/coverage.py:87-106 | the repaired result represents all meaningful artifacts if and only if each title normalises to something that an item of the result, an artifact with evidence, or one of the united facts and questions says |
| `Coverage.RepairLeaves` | services/conversation/coverage.py:87-106 | a meaningful artifact is listed as unrepresented after the repair if and only if none of these says its title |
| `Coverage.WithoutEvidence` | services/conversation/artifacts.py:187-190 | an artifact without evidence, other than a question or a fact, adds nothing to the repair, and stays unrepresented unless what is there without it says its title |
| `Coverage.LoneTaskIsLost` | services/conversation/artifacts.py:187-190 | a lone task without evidence stays unrepresented |
| `Segmentation.PrintedNumber` | services/conversation/transcript.py:158-160 | the number of a printed line is read back |
| `Segmentation.Segmenter.FlushCurrent` | services/conversation/transcript.py:108-138 | flush: one segment, and the lines it hands on |
| `Segmentation.Segmenter.Take` | services/conversation/transcript.py:140-152 | one line of the loop, with the early stop |
| `Segmentation.SegmentTranscript` | services/conversation/transcript.py:90-155 | the call returns the segments of the specification |
| `Segmentation.SegmentsPartition` | services/conversation/transcript.py:90-155 | each segment has the next index, is the tail of the one before and new lines, starts and ends with its first and last line, stays within target when it has two or more new lines, and ends only where its next line would be too much; the new lines are a prefix of all lines, and all of them if and only if the cap does not stop the loop |
| `Segmentation.RepeatedIsShortest` | services/conversation/transcript.py:123-138 | a segment repeats the shortest tail of its predecessor that reaches the overlap, or all of it |
| `Segmentation.SentencesMakeUp` | services/conversation/transcript.py:140-146 | the sentences of a text and the white space between them make it up again; every cut is behind an end mark and before white space, and no sentence could be cut further |
| `Segmentation.SegmentsSayAll` | services/conversation/transcript.py:90-155 | when the cap does not stop the loop, the new lines of the segments say all of every chunk, chunk by chunk |
| `ChatPaging.RemainingIsBehind` | services/chat/repository.py:200-204 | the sorted query behind a cursor is the part of the whole listing that follows it |
| `ChatPaging.NextPage` | services/chat/service.py:314-327 | a page holds at most the limit, clamped to 1 to 100, and with what its cursor leads to makes up what its own cursor leads to; a cursor is given exactly when something remains |
| `ChatPaging.PagingListsEverything` | services/chat/repository.py:185-223 | following the cursors lists every session of the user, the meeting and, if one is asked for, the space once, the latest update first and the higher identifier first among equals, for any page size |
| `Base64Url.BytesOfSextets` | services/auth/node_token.py:126-127 | packing bytes into sextets loses nothing |
| `Base64Url.GroupsAreNumbers` | services/auth/node_token.py:126-127 | the k-th four sextets make the same number of 24 bits as the k-th three bytes |
| `Base64Url.RestIsNumber` | services/auth/node_token.py:126-127 | bytes left over make the number of their sextets, filled up with zeros |
| `Base64Url.PaddedToFour` | services/auth/node_token.py:126-127 | the padded text has four characters for every three bytes begun |
| `Base64Url.EncodeInjective` | services/auth/node_token.py:126-127 | no two byte strings have the same text |
| `Base64Url.RoundTripExactly` | services/auth/node_token.py:130-132 | a text is read back if and only if the standard text uses neither of the two replaced characters, and is refused otherwise |
| `Base64Url.DecodesExactly` | services/auth/node_token.py:130-132 | a text without padding is read if and only if its length is not 1 mod 4 and all of it is in the standard alphabet |
| `Base64Url.AsciiRoundTrip` | services/auth/node_token.py:126-132 | for ASCII this fails exactly when a byte at a position 2 mod 3 is 62, 63, 126 or 127 |
| `Base64Url.RiskyTextIsRefused` | services/auth/node_token.py:130-132 | the text of the bytes of "aa>" is refused |

## Left out

- Language-model calls, prompts, routing and structured-output recovery: their results are arbitrary inputs.
- Redis streams, S3, HTTP routes, logging and debug traces; the identifiers `close_ready_windows` returns. Publishing is only the queued mark of a window, so nothing is said about how often a job is published.
- Job leases and Mongo fences, whose code is not part of this model.
- A worker that dies between its write and its counter: in the model it stays in its phase for ever.
- Extraction, recovery and memory of windows after they are stored, and the audio look-ups that decide which lost transcriptions are queued again.
- Sparse closing in `OnlineEqualsBatch`, because the end of a call compares with `>=` and the loop with `>`; it is modelled everywhere else.
- Chunks whose stored number does not convert, except in `SemanticInput`, and duplicate documents of one number.
- `stt_failure` classification and the clocks behind stale and missing documents: booleans and sets.
- Sorting of `chunks` inside `segment_transcript` and `build_ready_windows`: the stored listing is already in order. A negative `max_segments`.
- The stored window text that replaces an empty assembly of chunks, and the diagnostics of `assemble_semantic_window_input`.
- `retrieve_relevant_artifacts`, weak windows, compression ratio and topic counts of `evaluate_coverage`, and the other fields of tasks, notes, decisions and issues: easy or heuristic.
- The JSON and Base64 text of a session cursor, and sessions whose identifier is not a native one.
- Fields that no modelled step reads: update times, attempts of transcriptions, provider and usage data.
