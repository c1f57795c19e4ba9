# Verified models of the bridges' protocol logic

Alleycat connects Codex clients to coding agents. Its bridges translate agent events into
Codex notifications and turns, its host carries JSON lines over WebSockets, and its harness
compares a bridge with Codex itself. This project models the stateful parts of that code in
Dafny and proves what they keep over every run.

- **ACP turn pipeline.** The live emitter (`Emitter`), the batch translator (`Translator`), the
  segmentation of a replay into turns (`Replay`) and the harness's stream monitor
  (`StreamMonitor`) are four machines over one kind of frame. The monitor accepts everything the
  emitter sends (`EmitterAccepted`), live and batch produce the same items (`LiveBatch`),
  segmentation preserves them (`Replay`), and a tool call is the closed form of its history
  (`ToolCalls`, `CallHistory`). `Rendering` says what clients are shown of a call, `ItemTexts` and
  `ItemRuns` what the items of a turn hold and where they begin, `ItemNotes` what the
  notifications carry. `EmptyChunks` treats empty chunks, which the two readers take differently,
  `ChunkKinds` the images and texts that only batch reads, `MonitorExact` and `MonitorFindings`
  say what the monitor accepts and reports without its table, and `ReplayTurns` and `Spellings`
  which turns a replay gives and how ids are written.
- **Amp turns.** `AmpTurns` is the interleaving machine of turn/start, turn/interrupt, turn/steer
  and the event pumps, one step per lock; `AmpCopies` relates the log and the transcript it
  writes, `AmpClosing` what is announced and what is closed in the log, `AmpTurnEnds` what a turn
  says when it is over, `AmpDistinct` reads the ids of a turn's items off amp's lines, `AmpRuns`
  has runs of a single turn; `AmpTranslator` and `AmpConservation` treat the translator of amp's
  output, `AmpBlocks` what it says of each block; `AmpLog` is the in-memory log.
- **Bytes and frames.** `Framing` and `WebSocketAdapter` are the length-prefixed frames and the
  line adapter, `WebSocketRoundTrip` puts writer and reader together. `WebSocketRetries` is one
  pending write and its repetition, `WebSocketRetried` whole runs in which writes are repeated,
  `WebSocketEnds` how reads, writes and flushes end. `Utf8Tail` is the truncation of terminal
  output. `AcpDemux` and `AcpDemuxRuns` are the ACP client's demultiplexer and all its
  interleavings.
- **The harness.** `RpcClient` is the JSON-RPC client that copes with responses out of order,
  `RpcOrder` what its calls take in which order, `Fingerprint` and `Conformance` the comparison of
  two transcripts, `ComparedMembers` the report said on raw JSON. `Hydration` fills the thread
  index from a scan.

State that the code updates in place is a class here, loops are loops, and each method is
proved equal to a function of the old state; the theorems are about those functions.
Handlers that interleave are modelled as steps at the granularity of one lock acquisition, so a
theorem about a run holds for every schedule.

`dafny verify dfyconfig.toml` checks the whole project.

## Where the code keeps less than it seems to

The code is modelled as it is. Where a promise fails, the exact condition is proved, and an
input on which it fails is shown.

- An update for a call that was never announced is announced and then merged, so its content
  counts twice (`CallHistory.OrphanUpdateAppliedTwice`). A call holds each frame's content once if
  and only if it was announced or its first update has none (`CallHistory.ContentCountsOnce`).
- The two readings of a text chunk differ on an empty one: batch closes the open run, live ignores
  it. On streams of text chunks, empty ones included, the items agree if and only if no empty
  chunk of the other kind stands inside a run of text (`EmptyChunks.AgreeIffUnsplit`), and there
  is one item more for each run so cut (`EmptyChunks.OneItemPerSplit`).
- A call that ended and is reopened is not sent any more: its last completion is its final item if
  and only if it never ended, or is ended in the end (`ItemNotes.LastCompletion`,
  `ItemNotes.ReopenedCall`).
- Images, and the text of audio, resources and links, are read by batch alone. On streams of
  well-formed blocks of every kind the items agree if and only if there is none of these and no
  run is cut (`ChunkKinds.AgreeIffAllRead`). Each block read differently has a stream that shows
  it (`LiveBatch.DisagreementShows`).
- A replay segment without items is skipped, and its number is used again. The condition under
  which turn ids repeat is read off the frames (`Replay.TurnIdsDistinct`); the user chunks "",
  "a", "b" meet it (`Replay.SkippedSegmentRepeatsId`).
- Each update that reaches into an earlier segment adds one item
  (`Replay.SegmentationPreservesItems`, `Replay.LateUpdateAddsItem`).
- A pending `poll_write` has already taken the caller's bytes, and the retry sends them again; a
  line it puts back has lost its return, and is stripped again. For every pending write it is
  exact when the retry does what one write would have done (`WebSocketRetries.RetryIsOnce`): never
  for an ordinary line (`WebSocketRetries.LineSentTwice`), for clean bytes exactly for a bare line
  end (`WebSocketRetried.CleanRetry`), and not even for that if the line stopped at ends in two
  returns (`WebSocketRetries.BareLineEndNotHarmless`). So it is over whole runs
  (`WebSocketRetried.RetriedRoundTrip`).
- A pending `poll_write` keeps the lines still to be sent if and only if the line it stopped at
  does not end in two returns (`WebSocketRetries.PendingKeepsLines`,
  `WebSocketRetries.SecondReturnLost`).
- The comment of `send_request_streaming` (crates/acp-bridge/src/acp_client.rs:193-197) says that
  notifications after the response do not reach the subscriber. Those routed before it is removed
  do (`AcpDemuxRuns.SubscriberHearsItsStretch`, `AcpDemuxRuns.LateNotificationHeard`).
- A request registered after the agent's output has ended is never answered
  (`AcpDemuxRuns.EveryRequestWoken`, `AcpDemuxRuns.LateRequestWaits`).
- A wait that fails drops the notifications it had collected (`RpcClient.FailedWaitLosesNote`),
  and a deadline that falls inside a line drops its beginning (`RpcClient.TornLineLost`). Nothing
  is lost if and only if no line is cut and every wait gets its response or reads nothing but
  responses to other requests (`RpcClient.NothingLost`).
- Results nobody asked for and calls overwritten upset the balance of started and completed ids,
  unless they are the same (`AmpConservation.Conservation`,
  `AmpConservation.OrphanResultUnbalances`).
- Steered items reach the log and not the transcript (`AmpCopies.CopiesAgree`,
  `AmpRuns.SteerPartsCopies`).
- An interrupt may record a turn's completion before the turn is entered in the log, or in the log
  of another connection. Clients are told that the turn is completed, and the log shows it in
  progress for ever, if and only if that happened (`AmpClosing.AnnouncedIsClosed`,
  `AmpRuns.EarlyInterruptLeavesOpen`, `AmpRuns.OtherConnectionLeavesOpen`).
- The comment of `fingerprint` (crates/bridge-conformance/src/schema.rs:154-157) says that only
  the first element of an array is visited. All are (`Fingerprint.FingerprintIsPopulatedPaths`).
- A step whose frames are not one run loses the earlier runs, and frames without a step are
  dropped (`Conformance.GroupsPartition`, `Conformance.SplitStepLosesFrames`).

## Model

| member | source | states |
|---|---|---|
| Ids.DecimalInjective | crates/acp-bridge/src/streaming.rs:224-225 | different counters are written differently |
| Ids.TextInjective | crates/acp-bridge/src/streaming.rs:223-226 | two item ids with the same text are the same id, and no id is empty, so comparing structured ids is comparing the strings the bridge compares |
| ToolCalls.RenderedGrows | crates/acp-bridge/src/translator.rs:526-656 | an update only adds to what is shown of a call: one that has shown a diff stays a file change, and changes, output and content items keep all that was there, in front |
| ToolCalls.AggregateTextOutput | crates/acp-bridge/src/translator.rs:746-764 | the loop returns the text of all content blocks in order, or nothing when there is none |
| ToolCalls.OutputTextConcat | crates/acp-bridge/src/translator.rs:746-764 | the output text of content that grew is the old output text followed by that of the new content |
| ToolCalls.MergeAllClosedForm | crates/acp-bridge/src/translator.rs:94-162 | merging any updates one at a time gives each scalar its last value set, the content and locations of all in order, and the clock of the first terminal update |
| Rendering.ClosedShown | crates/acp-bridge/src/translator.rs:526-764 | over every announcement and updates: which of the three kinds a call is shown as; completed if and only if the last status set is "completed", failed if and only if it is "failed", and success with it; one change for each diff block, in order, an addition without old text and a deletion without new; command, directory, output, exit code, duration, name, arguments and content by their order of preference over what was sent |
| Rendering.StoredShows | crates/acp-bridge/src/translator.rs:334-373 | at every point of every run, live and batch, the item stored for a call shows this of everything said about the call |
| Translator.SessionUpdateTranslator.constructor | crates/acp-bridge/src/translator.rs:172-181 | a new translator is in the initial state with an empty index |
| Translator.SessionUpdateTranslator.Push | crates/acp-bridge/src/translator.rs:352-363 | appending keeps the index mapping every id to the last position that holds it |
| Translator.SessionUpdateTranslator.Replace | crates/acp-bridge/src/translator.rs:365-373 | the indexed slot is the last item with the id, and only that item changes; an unknown id is appended |
| Translator.SessionUpdateTranslator.Flush | crates/acp-bridge/src/translator.rs:289-321 | an open run becomes one item numbered at its end, an empty one becomes none |
| Translator.SessionUpdateTranslator.Append | crates/acp-bridge/src/translator.rs:268-287 | the new state is the specification's for every content block, image blocks included |
| Translator.SessionUpdateTranslator.Announce | crates/acp-bridge/src/translator.rs:323-332 | a call without an id changes nothing; any other gets a slot and a state |
| Translator.SessionUpdateTranslator.MergeKnown | crates/acp-bridge/src/translator.rs:340-350 | the state of a known call and its slot change together |
| Translator.SessionUpdateTranslator.Merge | crates/acp-bridge/src/translator.rs:334-350 | an update of an unknown call is announced first |
| Translator.SessionUpdateTranslator.IngestFrame | crates/acp-bridge/src/translator.rs:185-257 | one frame takes the machine from a state to the specification's next state |
| Translator.SessionUpdateTranslator.Finish | crates/acp-bridge/src/translator.rs:259-266 | the output is that of the state with its open run closed |
| Emitter.TurnStreamEmitter.constructor | crates/acp-bridge/src/streaming.rs:98-116 | a new emitter is in the initial state with an empty index |
| Emitter.TurnStreamEmitter.Push | crates/acp-bridge/src/streaming.rs:351-362 | appending keeps the index mapping every known id to the last position that holds it |
| Emitter.TurnStreamEmitter.Replace | crates/acp-bridge/src/streaming.rs:364-371 | only the last item with the id changes, and the index stays right |
| Emitter.TurnStreamEmitter.Flush | crates/acp-bridge/src/streaming.rs:277-299 | an open run becomes an item and is announced completed with its whole text |
| Emitter.TurnStreamEmitter.Text | crates/acp-bridge/src/streaming.rs:211-275 | text opens a run when needed, closes one of the other kind, and is sent as a delta; empty text does nothing |
| Emitter.TurnStreamEmitter.Announce | crates/acp-bridge/src/streaming.rs:301-318 | a call with an id is started, given a slot and put in flight |
| Emitter.TurnStreamEmitter.MergeKnown | crates/acp-bridge/src/streaming.rs:325-349 | every update that leaves the status terminal sends a completion, and the slot shows the merged state |
| Emitter.TurnStreamEmitter.Merge | crates/acp-bridge/src/streaming.rs:320-349 | an update of an unknown call is announced first |
| Emitter.TurnStreamEmitter.IngestFrame | crates/acp-bridge/src/streaming.rs:118-165 | one frame takes the machine from a state to the specification's next state |
| Emitter.TurnStreamEmitter.DrainOne | crates/acp-bridge/src/streaming.rs:172-181 | a call not completed yet is completed and its slot rewritten |
| Emitter.TurnStreamEmitter.Drain | crates/acp-bridge/src/streaming.rs:172-181 | in whatever order the map yields the calls, each is drained exactly once |
| Emitter.TurnStreamEmitter.Finish | crates/acp-bridge/src/streaming.rs:172-188 | the turn's notifications and stored items are those of the last flush followed by a drain in some order |
| EmitterInvariants.RunInv | crates/acp-bridge/src/streaming.rs:118-371 | at every point of every run the started ids, in order, are the ids of the items followed by the open run's id, and every call in flight has a slot that shows its state |
| EmitterInvariants.DrainChangesNothing | crates/acp-bridge/src/streaming.rs:172-181 | when every slot shows its call, the rewrites of finish change no item |
| EmitterInvariants.FinishItems | crates/acp-bridge/src/streaming.rs:172-188 | the items of a turn do not depend on the order in which its calls are drained |
| ItemNotes.FrameNotes | crates/acp-bridge/src/streaming.rs:118-362 | every notification sent for a frame of a run bears its clock; a started tool item shows the announcement, a completed item is the one stored under its id after the frame, of an ended call if it is a tool, and a delta is the text of the chunk for the open item |
| ItemNotes.FinishNotes | crates/acp-bridge/src/streaming.rs:172-188 | what is sent at the end of a turn are completions of stored items |
| ItemNotes.LastCompletion | crates/acp-bridge/src/streaming.rs:172-188 | the last completion of a call over a turn is its final item if and only if no update left it ended or it is ended in the end |
| ItemNotes.ReopenedCall | crates/acp-bridge/src/streaming.rs:325-349 | after an update to completed and one back to in progress they differ |
| ItemTexts.ReadersRead | crates/acp-bridge/src/translator.rs:401-478 | for each type of block, which member the batch translator reads as text or as an image, and which the live emitter reads |
| ItemTexts.LiveItemsHold | crates/acp-bridge/src/streaming.rs:118-390 | the live items hold, in order, exactly the text of the chunks, each under its kind, and each call where it first comes up or is announced again |
| ItemTexts.BatchItemsHold | crates/acp-bridge/src/translator.rs:185-380 | the batch items hold, in order, exactly what batch reads of chunks and user messages, the images and the calls |
| ItemRuns.LiveItemsBegin | crates/acp-bridge/src/streaming.rs:211-299 | there is one live text item for each text that no open run of its kind takes up |
| ItemRuns.BatchItemsBegin | crates/acp-bridge/src/translator.rs:268-321 | the same for batch, where an image and an empty chunk of the other kind end a run as well |
| ItemRuns.SettingsAreLast | crates/acp-bridge/src/streaming.rs:145-163 | plan, commands and mode are the last ones sent |
| StreamMonitor.WatchFrames | crates/bridge-conformance/src/streaming.rs:28-53 | the loop computes the monitor's state after all frames |
| StreamMonitor.Check | crates/bridge-conformance/src/streaming.rs:28-75 | the findings are those of the frames followed by one for each item left open; there is none exactly when the stream is accepted |
| StreamMonitor.WatchConcat | crates/bridge-conformance/src/streaming.rs:28-53 | watching one stream after another is watching their concatenation |
| MonitorExact.WatchTracks | crates/bridge-conformance/src/streaming.rs:99-246 | the table holds an item exactly if it was started; its kind is that of the last start, its text the deltas since, and it is completed if a completion followed |
| MonitorExact.FindingsIff | crates/bridge-conformance/src/streaming.rs:124-246 | no frame draws a finding if and only if every delta and completion is legal after the frames before it |
| MonitorExact.AcceptsExactly | crates/bridge-conformance/src/streaming.rs:28-246 | a stream is accepted if and only if every frame is legal and the last start of every item is followed by its completion |
| MonitorFindings.FindingsAre | crates/bridge-conformance/src/streaming.rs:99-246 | the findings of a stream are, frame by frame, those for a delta or completion without a start, of the wrong kind, without deltas, or with a final text other than the deltas since the start, with these texts |
| MonitorFindings.LeftOpenAre | crates/bridge-conformance/src/streaming.rs:55-67 | an item whose last start has no completion after it, and only such an item, is reported at the end, with the step and kind of that start |
| EmitterAccepted.TurnAtRest | crates/acp-bridge/src/streaming.rs:118-315 | a whole turn leaves a monitor with nothing open and no finding, whatever it has seen before |
| EmitterAccepted.SessionAccepted | crates/acp-bridge/src/streaming.rs:118-315 | for all frames, in any number of turns whose ids restart, the monitor accepts the notifications, finish included |
| CallHistory.CompletionCount | crates/acp-bridge/src/streaming.rs:172-181 | the completions of a call are the updates that left it terminal, plus one if none did since its last announcement |
| CallHistory.CompletedAtLeastOnce | crates/acp-bridge/src/streaming.rs:301-349 | every call ever mentioned is completed at least once, and exactly once if and only if no update or just the final one left it terminal |
| CallHistory.CompletedExactlyOnce | crates/acp-bridge/src/streaming.rs:301-349 | a call never announced again and left terminal at most once is completed exactly once |
| CallHistory.EmitterHoldsClosedForm | crates/acp-bridge/src/streaming.rs:301-349 | whatever frames come in between, the live state of a call is the closed form of its announcement and updates, and a call is in flight exactly if it was mentioned |
| CallHistory.TranslatorHoldsClosedForm | crates/acp-bridge/src/translator.rs:323-350 | the same for the batch translator |
| CallHistory.HistoryIsAbout | crates/acp-bridge/src/streaming.rs:301-349 | the history of a call is the frames about it since its last announcement; for a call never announced the first of them is in it twice |
| CallHistory.ContentCountsOnce | crates/acp-bridge/src/streaming.rs:301-349 | live and batch, the content held for a call is that of the frames about it since its last announcement, each once, if and only if it was announced or its first update has no content; and so for locations |
| ItemViews.ViewSize | crates/acp-bridge/src/translator.rs:375-380 | renumbering items keeps how many are numbered and drops user messages only |
| ItemViews.ReplaceInView | crates/acp-bridge/src/translator.rs:365-373 | rewriting a tool's slot commutes with renumbering |
| LiveBatch.PlainTextAgrees | crates/acp-bridge/src/streaming.rs:373-390 | both machines read a non-empty plain text chunk as its text |
| LiveBatch.LiveAgreesWithBatch | crates/acp-bridge/src/streaming.rs:118-299 | on every stream whose chunks are read alike, the live items are the batch items without user messages, up to numbering, and plan and commands are equal |
| LiveBatch.TranslationNumbered | crates/acp-bridge/src/translator.rs:185-380 | a batch translation numbers its items 0, 1, 2, ... in order and has one user message for each user chunk with text |
| LiveBatch.SameIdsWithoutUsers | crates/acp-bridge/src/translator.rs:185-321 | live and batch items are equal, ids included, if and only if no user chunk carries text |
| LiveBatch.DisagreementShows | crates/acp-bridge/src/translator.rs:271-279 | for every chunk the two machines read differently, alone or between two plain chunks, there is a stream on which their items differ |
| EmptyChunks.SplitsIff | crates/acp-bridge/src/translator.rs:268-287 | a run counts as cut exactly if an empty chunk of the other kind stands between two of its texts with no flush and no other text between them |
| EmptyChunks.OneItemPerSplit | crates/acp-bridge/src/translator.rs:268-321 | on streams of text chunks, empty ones included, batch makes one item more than live for each cut run |
| EmptyChunks.AgreeIffUnsplit | crates/acp-bridge/src/translator.rs:268-287 | on such streams live and batch items agree if and only if no empty chunk of the other kind stands inside a run of text |
| ChunkKinds.WellFormedReadsPart | crates/acp-bridge/src/translator.rs:401-470 | of a block that has a text member only if its type is text, live reads the text batch reads or nothing |
| ChunkKinds.SizeView | crates/acp-bridge/src/translator.rs:375-380 | renumbering items and dropping user messages changes no text |
| ChunkKinds.RunHolds | crates/acp-bridge/src/streaming.rs:118-299 | the items and the open run of either machine hold exactly the text it read, each image counted as one |
| ChunkKinds.AgreeIffAllRead | crates/acp-bridge/src/streaming.rs:373-390 | on streams of such blocks live and batch items agree if and only if there is no image and no text that live does not read, and no run is cut |
| Replay.TranslateSegment | crates/acp-bridge/src/handlers.rs:868-874 | a segment's items are those of a fresh translator run over it |
| Replay.UserBoundaries | crates/acp-bridge/src/handlers.rs:806-822 | the loop finds exactly the positions of the user chunks, in order |
| Replay.BuildTurnsFromReplay | crates/acp-bridge/src/handlers.rs:805-906 | the turns are the preface, the segments between boundaries and the last segment, without those that have no items |
| Replay.TurnsHoldCut | crates/acp-bridge/src/handlers.rs:824-906 | the items of the turns are what one pass that restarts the translator at every boundary collects |
| Replay.SegmentationPreservesItems | crates/acp-bridge/src/handlers.rs:805-906 | the turns have one item more than a single translation for each update that reaches into an earlier segment, and are that translation up to numbering if and only if none does |
| Replay.LateUpdateAddsItem | crates/acp-bridge/src/handlers.rs:805-906 | a call, a message of the user and an update of the call give turns with one item more than the translation |
| Replay.TurnIdTextInjective | crates/acp-bridge/src/handlers.rs:850-902 | two turn ids with the same text are the same id |
| Replay.HasItemsIff | crates/acp-bridge/src/handlers.rs:868-874 | a segment has items if and only if one of its frames is a non-empty text, a standalone block or a tool call with an id |
| Replay.ClosedAreFilled | crates/acp-bridge/src/handlers.rs:824-886 | before the last segment there are as many turns as segments with such a frame |
| Replay.TurnIdsDistinct | crates/acp-bridge/src/handlers.rs:866-902 | turn ids are pairwise distinct if and only if the last segment is empty, or the segment whose number it would get is missing or empty |
| Replay.SkippedSegmentRepeatsId | crates/acp-bridge/src/handlers.rs:866-902 | an empty user chunk and two with text give two turns with the same id |
| Replay.TurnIdsDistinctWithTexts | crates/acp-bridge/src/handlers.rs:850-902 | they are pairwise distinct when every user chunk carries text |
| ReplayTurns.OneTurn | crates/acp-bridge/src/handlers.rs:823-842 | a replay without user chunks is the turn turn-acp-0 with the translation of all its frames, if some frame yields an item |
| ReplayTurns.TurnsAre | crates/acp-bridge/src/handlers.rs:844-906 | the turns are those of the preface, of each segment between user chunks and of the last one, if some frame of it yields an item, with their ids written out and the translation of the segment |
| Spellings.DecimalReads | crates/acp-bridge/src/streaming.rs:224-225 | numbers are written in decimal, without a zero in front |
| Spellings.TurnIdTexts | crates/acp-bridge/src/handlers.rs:850-902 | turn ids as they are written |
| AmpTranslator.AmpTurnTranslator.constructor | crates/amp-bridge/src/bridge.rs:1324-1331 | a new translator holds the initial items and nothing pending |
| AmpTranslator.AmpTurnTranslator.TranslateAssistant | crates/amp-bridge/src/bridge.rs:1342-1510 | the blocks of an assistant message change items, pending tools and notifications as specified, block by block |
| AmpTranslator.AmpTurnTranslator.TranslateUser | crates/amp-bridge/src/bridge.rs:1512-1573 | each tool result completes the pending tool with its id, or an item of its own |
| AmpTranslator.AmpTurnTranslator.TranslateResult | crates/amp-bridge/src/bridge.rs:1575-1611 | every tool still pending is completed, in whatever order the map yields them, and the turn ends |
| AmpTranslator.AmpTurnTranslator.TranslateValue | crates/amp-bridge/src/bridge.rs:1333-1340 | one line of amp's output takes the translator to the specification's next state |
| AmpConservation.RunInvariant | crates/amp-bridge/src/bridge.rs:1333-1611 | at every point the items are the initial ones followed by the completed ones, and started ids plus orphan results equal completed, pending and overwritten ids |
| AmpBlocks.LinesTell | crates/amp-bridge/src/bridge.rs:1342-1611 | over any lines the notifications are, block by block: a text or thinking with its text; a call with its name and input; a result with the name, input and parent of the latest unanswered call with its id, the content of the result, done and successful if and only if it is no error; and for the result line a failure of every call still due |
| AmpConservation.Conservation | crates/amp-bridge/src/bridge.rs:1333-1611 | after the result nothing is pending, and started and completed ids are the same multiset if and only if the orphan results are the overwritten calls |
| AmpConservation.OrphanResultUnbalances | crates/amp-bridge/src/bridge.rs:1512-1573 | a result nobody asked for completes an id that was never started |
| AmpConservation.PairedBooks | crates/amp-bridge/src/bridge.rs:1419-1573 | calls with fresh ids, each answered at most once after its call, leave no orphan and overwrite nothing |
| AmpConservation.StartedEqualsCompleted | crates/amp-bridge/src/bridge.rs:1333-1611 | for such calls every started id is completed exactly as often as it was started |
| AmpConservation.RunAccepted | crates/amp-bridge/src/bridge.rs:1333-1611 | the conformance monitor accepts the translator's notifications at every point of every run |
| AmpLog.ConnectionState.RecordTurnStarted | crates/amp-bridge/src/state.rs:175-186 | a new open turn is added at the end of the thread's log |
| AmpLog.ConnectionState.RecordItem | crates/amp-bridge/src/state.rs:188-206 | the latest turn with the id gets the item in place of the one with its id, or at its end |
| AmpLog.ConnectionState.RecordTurnCompleted | crates/amp-bridge/src/state.rs:208-225 | the latest turn with the id is closed; an unknown one changes nothing |
| AmpLog.ConnectionState.ReadLog | crates/amp-bridge/src/state.rs:227-249 | the turns returned are the recorded ones one for one, in order, with their ids, items, status, error and times, and a duration, never negative, exactly for the closed ones |
| AmpLog.ConnectionState.FindTurn | crates/amp-bridge/src/state.rs:193-196 | the search finds the last turn with the id |
| AmpLog.FindItem | crates/amp-bridge/src/state.rs:197-202 | the search finds the first item with the id |
| AmpLog.RecordAllIdentity | crates/amp-bridge/src/state.rs:188-206 | recording a list of items one by one gives the list back if and only if their ids are distinct |
| AmpLog.UpsertPlaces | crates/amp-bridge/src/state.rs:188-206 | an item takes the place of the first with its id and of no other, or goes to the end |
| AmpLog.RecordAllKeepsLast | crates/amp-bridge/src/state.rs:188-206 | of items recorded one by one each id keeps the last |
| AmpTurns.ActiveTurns.ReserveTurn | crates/amp-bridge/src/bridge.rs:1113-1134 | a thread is reserved exactly if it has no active turn |
| AmpTurns.ActiveTurns.AttachProcess | crates/amp-bridge/src/bridge.rs:1136-1151 | a process is attached exactly if the thread's entry is that turn's |
| AmpTurns.ActiveTurns.RemoveMatching | crates/amp-bridge/src/bridge.rs:1153-1167 | the entry is removed exactly if it is that turn's |
| AmpTurns.ActiveTurns.TakeForInterrupt | crates/amp-bridge/src/bridge.rs:1025-1048 | an interrupt takes the entry exactly if it is that turn's and its process is attached |
| AmpTurns.TableOperationsKeepOthers | crates/amp-bridge/src/bridge.rs:1113-1167 | a stale pump, a failed start, an attachment or a reservation never touches another turn's entry |
| AmpTurns.StepLocal | crates/amp-bridge/src/bridge.rs:862-1297 | a step of one turn's tasks changes no other turn, its entry, or its completions |
| AmpTurns.RunOwned | crates/amp-bridge/src/bridge.rs:862-1297 | in every reachable state a turn's entry is in the table until its pump, an interrupt or a failed start has taken it, never both pump and interrupt, and its completions count those two that have announced it |
| AmpTurns.CompletedExactlyOnce | crates/amp-bridge/src/bridge.rs:1265-1297 | over every interleaving a turn gets at most one completion, none before a task announces it, and exactly one once its pump and any interrupt that took it are done |
| AmpTurns.AttachAlwaysSucceeds | crates/amp-bridge/src/bridge.rs:1020-1048 | a turn still launching cannot be interrupted away, so attaching its process never fails |
| AmpTurns.OneLiveTurnPerThread | crates/amp-bridge/src/bridge.rs:1113-1134 | two live turns of a thread are the same turn, and it is the one in the table |
| AmpCopies.RunFits | crates/amp-bridge/src/bridge.rs:862-1297 | in every reachable state each turn's log entry and stored turn follow its tasks, and no turn id is logged or stored twice |
| AmpCopies.CopiesAgree | crates/amp-bridge/src/bridge.rs:1265-1281 | once the log's entry is closed, the turn the pump stores equals the one the log plays back in every field if and only if no steer landed and its item ids are distinct |
| AmpCopies.AllTurnsDistinct | crates/amp-bridge/src/bridge.rs:1092-1110 | however far the run gets between the reading of the transcript and that of the log, the list of a thread's turns never shows a turn id twice |
| AmpCopies.LogTurnIsStored | crates/amp-bridge/src/bridge.rs:1092-1110 | a logged turn that the list drops equals the stored turn with its id if and only if no steer landed in that turn and its item ids are distinct |
| AmpCopies.AllTurnsComplete | crates/amp-bridge/src/bridge.rs:1092-1110 | every stored turn is listed, and every turn of the log is listed as it is if and only if no steer landed in, and no item id repeats in, those turns of this log that were stored by the first read |
| AmpCopies.StoredGrows | crates/amp-bridge/src/bridge.rs:1265-1281 | over any run a transcript keeps what it holds, in place, and only grows at its end |
| AmpTurnEnds.RunTruthful | crates/amp-bridge/src/bridge.rs:862-1297 | in every run each job has the connection, thread, start and input of its turn/start, and the turn of its pump or interrupt has the status, error and times of the step that ended it |
| AmpTurnEnds.EndIsTold | crates/amp-bridge/src/bridge.rs:1240-1281 | once a pump has ended, its turn, the entry it closed in the log and the turn in the transcript have the error of that end, are failed if and only if there is one and succeeded otherwise, and have the start of the turn, the time of the end and the difference in milliseconds, never negative |
| AmpTurnEnds.AnnouncedIsTold | crates/amp-bridge/src/bridge.rs:1049-1090 | every turn/completed carries such a turn, or an interrupted one with its error and times and the items the interrupt found in the log |
| AmpTurnEnds.TranscriptIs | crates/amp-bridge/src/bridge.rs:1265-1281 | a transcript is what was on disk and then exactly the turns pumps have stored, in order |
| AmpClosing.RunCloses | crates/amp-bridge/src/bridge.rs:862-1297 | in every reachable state a turn's entry in the log of its connection is closed exactly if its pump has recorded its end, or its interrupt has, and in that log after the entry was made |
| AmpClosing.AnnouncedIsClosed | crates/amp-bridge/src/bridge.rs:1020-1090 | a logged turn that was announced completed is closed in the log of its connection if and only if its interrupt did not record that before the turn was in the log or in the log of another connection; otherwise it stays in progress |
| AmpRuns.EarlyInterruptLeavesOpen | crates/amp-bridge/src/bridge.rs:862-976 | a run of one turn, interrupted between the attachment of its process and its entry in the log, announces the completion and leaves the turn in progress |
| AmpRuns.OtherConnectionLeavesOpen | crates/amp-bridge/src/bridge.rs:77-96 | so does an interrupt from a connection with another log, after the entry was made |
| AmpRuns.SteerPartsCopies | crates/amp-bridge/src/bridge.rs:978-1018 | after a run with one steer the log plays back another turn than the pump stores |
| AmpDistinct.StartedAreAnnounced | crates/amp-bridge/src/bridge.rs:1342-1510 | the ids started are those of the texts and calls on the lines, in order |
| AmpDistinct.ItemsDistinctIff | crates/amp-bridge/src/bridge.rs:1333-1611 | the items of a turn have distinct ids if and only if no id comes twice among the initial items, the ids the lines announce and the results nobody asked for, not counting calls overwritten or still due |
| AmpDistinct.PumpHoldsFed | crates/amp-bridge/src/bridge.rs:1188-1263 | over every interleaving a pump holds the message of the user and then exactly the items its translator completed |
| AmpDistinct.CopiesAgreeOnLines | crates/amp-bridge/src/bridge.rs:1188-1281 | the stored turn equals the one the log plays back if and only if no steer landed and no id comes twice on the lines |
| AmpDistinct.PairedCopiesAgree | crates/amp-bridge/src/bridge.rs:1188-1281 | with paired calls and fresh ids they are equal if and only if no steer landed |
| Framing.PrefixInverse | crates/alleycat/src/framing.rs:13-35 | a length written as four bytes, most significant first, is read back |
| Framing.CodecInverse | crates/alleycat/src/http_server.rs:467-495 | a body encodes to a frame if and only if that frame decodes to the body |
| Framing.StreamRoundTrip | crates/alleycat/src/framing.rs:8-41 | the bodies of any frames written one after the other are read back in order |
| Framing.ReadFrameIs | crates/alleycat/src/framing.rs:8-41 | what is read from any bytes, and which error when: four bytes of length, at most 1048576, and then the body |
| Framing.ByteStream.Write | crates/alleycat/src/framing.rs:25-41 | a body over the limit leaves the stream as it was, any other is appended with its prefix |
| Framing.ByteStream.Read | crates/alleycat/src/framing.rs:8-23 | a frame at the front is taken off the stream; one over the limit loses its prefix only |
| WebSocketAdapter.NewlinePos | crates/alleycat/src/http_server.rs:397-399 | the position found holds a newline and none comes before it, or there is none |
| WebSocketAdapter.WebSocketBinaryStream.FindNewline | crates/alleycat/src/http_server.rs:397-399 | the scan finds the first newline |
| WebSocketAdapter.WebSocketBinaryStream.PollWrite | crates/alleycat/src/http_server.rs:390-431 | buffer, frames sent and result are the specification's for every buffer, line and readiness of the sink |
| WebSocketAdapter.WebSocketBinaryStream.PollFlush | crates/alleycat/src/http_server.rs:433-455 | what is left becomes one frame without trailing white space, if the sink is ready |
| WebSocketAdapter.WebSocketBinaryStream.PollRead | crates/alleycat/src/http_server.rs:338-386 | buffer, messages left and result are the specification's for every message and every room |
| WebSocketRoundTrip.BodiesConcat | crates/alleycat/src/http_server.rs:390-431 | splitting what has arrived and then the remainder with the next piece gives the lines of the whole |
| WebSocketRoundTrip.SendLinesSplits | crates/alleycat/src/http_server.rs:390-431 | with a sink that is always ready a write sends exactly the complete, non-empty lines and keeps the remainder |
| WebSocketRoundTrip.WriterSendsLines | crates/alleycat/src/http_server.rs:390-455 | however the bytes are cut into writes, with flushes at line ends, the frames are the lines of all the bytes |
| WebSocketRoundTrip.ReadConserves | crates/alleycat/src/http_server.rs:338-386 | a read hands out the next bytes, at least one if there is room and any is left, and loses none |
| WebSocketRoundTrip.DeliversPayload | crates/alleycat/src/http_server.rs:338-386 | for every choice of read sizes the bytes come in order, and enough reads deliver them all |
| WebSocketRoundTrip.LinesOf | crates/alleycat/src/http_server.rs:400-409 | lines and remainder together give the bytes back exactly when no line is empty or ends in a return, and are shorter otherwise |
| WebSocketRoundTrip.RoundTrip | crates/alleycat/src/http_server.rs:337-455 | for every chunking and every read size the bytes read are the bytes written if and only if they end at a line end and no line is empty or ends in a return |
| WebSocketEnds.DecodeExact | crates/alleycat/src/http_server.rs:467-482 | which binary messages decode, and which error the others draw |
| WebSocketEnds.EncodeExact | crates/alleycat/src/http_server.rs:484-495 | a body of up to 1048576 bytes is encoded, a longer one refused |
| WebSocketEnds.ReadTakes | crates/alleycat/src/http_server.rs:338-386 | with nothing buffered a read passes over control messages and takes the body of the next message and a line end, or ends with the error or the end of the stream that message calls for |
| WebSocketEnds.FlushSends | crates/alleycat/src/http_server.rs:433-448 | a flush sends what is left without the white space at its end as one frame, stays pending if the sink is not ready, and fails if that is too long |
| WebSocketEnds.WriteFails | crates/alleycat/src/http_server.rs:390-431 | with a ready sink a write fails if and only if some line is longer than 1048576 bytes |
| WebSocketRetries.PendingKeepsLines | crates/alleycat/src/http_server.rs:390-431 | for every buffer a pending write has sent its first lines and keeps the remainder, and it keeps the lines still to be sent, whatever is written next, if and only if the line it stopped at does not end in two returns |
| WebSocketRetries.SecondReturnLost | crates/alleycat/src/http_server.rs:404-416 | a line "a" with two returns is put back with one and would then be sent with none |
| WebSocketRetries.ReadySplits | crates/alleycat/src/http_server.rs:390-431 | a write that goes through has sent exactly the complete lines, which fit, and keeps the remainder, whatever the readiness of the sink |
| WebSocketRetries.RetryWritesTwice | crates/alleycat/src/http_server.rs:395-416 | for every pending write the retry acts as if the bytes had been written twice if and only if the line stopped at does not end in two returns, or is too long even with two bytes less |
| WebSocketRetries.RetryIsOnce | crates/alleycat/src/http_server.rs:395-416 | for every pending write the retry acts as one write would have if and only if: the line stopped at does not end in two returns, and the bytes, written after themselves, add no line and leave the same remainder; or that line is two returns, all lines behind it are a single return, and the bytes add one more such line; or nothing was written and a line is too long to be sent |
| WebSocketRetries.LineSentTwice | crates/alleycat/src/http_server.rs:395-416 | an ordinary line, pending and repeated, is sent twice |
| WebSocketRetries.BareLineEndNotHarmless | crates/alleycat/src/http_server.rs:404-416 | after "a" and two returns a line end adds nothing, and yet the retry sends another line than one write does |
| WebSocketRetried.CleanRetry | crates/alleycat/src/http_server.rs:395-416 | for clean bytes whose lines fit that is the case if and only if they are nothing, a line end, or a line end and a return; where a line does not fit, only if they are nothing |
| WebSocketRetried.RunHarmless | crates/alleycat/src/http_server.rs:390-455 | over any run in which only bare line ends are repeated, frames and remainder are those of the bytes written once |
| WebSocketRetried.RetriedRoundTrip | crates/alleycat/src/http_server.rs:337-455 | over a sink that is not always ready, for every chunking, any number of repetitions and every read size, the clean bytes written are the bytes read if and only if no write but of a bare line end was repeated |
| Utf8Tail.BoundaryIsCharStart | crates/acp-bridge/src/acp_client.rs:731 | in valid UTF-8 the single-byte boundary test finds exactly the starts of characters and the end |
| Utf8Tail.NextBoundary | crates/acp-bridge/src/acp_client.rs:730-733 | a boundary is at most three bytes away, so the loop ends within the text |
| Utf8Tail.TruncateUtf8Tail | crates/acp-bridge/src/acp_client.rs:722-736 | the flag says whether the text was over the limit; what is kept is whole characters from the end, as many as fit, and at most three bytes short of the limit |
| AcpDemux.CloseOne | crates/acp-bridge/src/acp_client.rs:382-391 | waking one request and then the rest is waking all, so the order of the drain does not matter |
| AcpDemux.Inner.constructor | crates/acp-bridge/src/acp_client.rs:72-79 | nothing is pending, subscribed or buffered at the start |
| AcpDemux.Inner.DispatchResponse | crates/acp-bridge/src/acp_client.rs:83-98 | a frame goes to the request waiting on its id, which stops waiting, or nowhere |
| AcpDemux.Inner.ForwardNotification | crates/acp-bridge/src/acp_client.rs:99-105 | a notification goes to the subscriber, if there is one |
| AcpDemux.Inner.CloseAll | crates/acp-bridge/src/acp_client.rs:382-391 | every waiting request gets the error and none waits any more |
| AcpDemuxRuns.StepKeeps | crates/acp-bridge/src/acp_client.rs:82-391 | every step of the reader, of a request and of a taker keeps the invariant that ties table, channels and buffer to the frames routed so far |
| AcpDemuxRuns.RunKeeps | crates/acp-bridge/src/acp_client.rs:82-391 | so it holds at every point of every interleaving |
| AcpDemuxRuns.AnsweredByOwnFrame | crates/acp-bridge/src/acp_client.rs:222-307 | a request that got a response got the first frame after its registration that has its id, and that frame answers no other request |
| AcpDemuxRuns.SubscriberHearsItsStretch | crates/acp-bridge/src/acp_client.rs:243-291 | a subscriber hears exactly the notifications from its installation to its removal, in order, so all up to the response, and no more than those if and only if none came between response and removal |
| AcpDemuxRuns.LateNotificationHeard | crates/acp-bridge/src/acp_client.rs:222-307 | a run in which a notification after the response reaches the subscriber |
| AcpDemuxRuns.StretchesDisjoint | crates/acp-bridge/src/acp_client.rs:229-291 | successive requests have different ids and stretches that do not overlap |
| AcpDemuxRuns.EveryRequestWoken | crates/acp-bridge/src/acp_client.rs:343-391 | a registered request is either answered or still in the table under its id; after the end of the output it is answered if and only if it was registered before |
| AcpDemuxRuns.ErrorMeansEnd | crates/acp-bridge/src/acp_client.rs:382-391 | a request that got the error got it because the output had ended, and no frame after its registration answers it |
| AcpDemuxRuns.LateRequestWaits | crates/acp-bridge/src/acp_client.rs:222-247 | a request registered after the end of the output waits in the table with nobody to wake it |
| AcpDemuxRuns.TakesDisjoint | crates/acp-bridge/src/acp_client.rs:183-186 | no notification is taken twice: takes cover consecutive stretches of the routed frames |
| RpcClient.PositionOf | crates/bridge-conformance/src/transport.rs:166-170 | the position found holds the id and no earlier one does |
| RpcClient.JsonRpcClient.TakePendingResponse | crates/bridge-conformance/src/transport.rs:166-172 | the first pending frame with the id is removed and no other, or nothing changes |
| RpcClient.JsonRpcClient.WaitForResponse | crates/bridge-conformance/src/transport.rs:72-108 | response, notifications and what stays pending are the specification's for every wire |
| RpcClient.JsonRpcClient.DrainNotificationsUntil | crates/bridge-conformance/src/transport.rs:122-164 | the drain stops at the first notification with a listed method and nowhere before |
| RpcClient.JsonRpcClient.DrainIdle | crates/bridge-conformance/src/transport.rs:197-212 | everything up to the first silence or cut line is returned or stays pending |
| RpcClient.AwaitAccounts | crates/bridge-conformance/src/transport.rs:72-108 | a wait returns a frame with the id asked for, and every frame it held or read is returned or pending; a wait without a response drops exactly those read that are no strays |
| RpcClient.AnsweredIff | crates/bridge-conformance/src/transport.rs:72-108 | a wait is answered if and only if its response is pending, or arrives before any silence, cut line or end |
| RpcClient.CollectAccounts | crates/bridge-conformance/src/transport.rs:122-212 | a drain loses no frame that was read whole |
| RpcClient.CallsAccount | crates/bridge-conformance/src/transport.rs:72-212 | over any calls each frame read whole is exactly once a response, a notification, pending, or dropped by a wait without a response |
| RpcClient.NothingLost | crates/bridge-conformance/src/transport.rs:72-212 | over any calls each frame that came is exactly once a response, a notification or pending, if and only if no deadline cut a line and every wait got its response or read nothing but responses to other requests |
| RpcClient.AnsweredCallsLoseNothing | crates/bridge-conformance/src/transport.rs:72-212 | so nothing is lost when every wait is answered and no line is cut |
| RpcClient.FailedWaitLosesNote | crates/bridge-conformance/src/transport.rs:72-108 | a wait that reads a notification and then times out leaves it nowhere |
| RpcClient.TornLineLost | crates/bridge-conformance/src/transport.rs:174-191 | a drain whose deadline falls inside a line leaves the line nowhere |
| RpcClient.WireOrder | crates/bridge-conformance/src/transport.rs:72-212 | the notifications and server requests returned over any calls are those read, in the order of the wire however responses are mixed in, if and only if every wait got its response or read nothing but responses to other requests |
| RpcOrder.PendingInOrder | crates/bridge-conformance/src/transport.rs:72-212 | after any calls the pending frames are in the order of the wire |
| RpcOrder.AnswerIsEarliest | crates/bridge-conformance/src/transport.rs:72-108 | a wait returns the first pending frame with its id, or else the first that arrives |
| RpcOrder.WaitReads | crates/bridge-conformance/src/transport.rs:84-106 | a wait puts aside the responses it reads and returns, in order, everything else it read before its own response |
| RpcOrder.DrainUntilReads | crates/bridge-conformance/src/transport.rs:146-163 | a drain with a list of methods returns what has a method that is a string and puts the rest aside, in order |
| RpcOrder.DrainReads | crates/bridge-conformance/src/transport.rs:197-212 | a drain until silence returns what has any method and puts the rest aside, in order |
| Fingerprint.WalkInto | crates/bridge-conformance/src/schema.rs:164-191 | the shared set ends as it began plus the paths of the value |
| Fingerprint.FingerprintIsPopulatedPaths | crates/bridge-conformance/src/schema.rs:158-191 | a path is in the fingerprint if and only if the value can be descended along it without meeting a null field |
| Fingerprint.PrefixClosed | crates/bridge-conformance/src/schema.rs:158-191 | everything on the way to a path is in the fingerprint as well |
| Fingerprint.AlikeSameFingerprint | crates/bridge-conformance/src/schema.rs:158-191 | values that agree up to null fields, field order and the order and number of array elements, at any depth, have the same fingerprint |
| Fingerprint.Rearranged | crates/bridge-conformance/src/schema.rs:181-189 | permuting or repeating the elements of an array makes no difference |
| Fingerprint.NullFieldsIgnored | crates/bridge-conformance/src/schema.rs:166-171 | adding, dropping or moving null fields makes no difference |
| Fingerprint.AlikeItems | crates/bridge-conformance/src/schema.rs:181-189 | a change that makes no difference to the elements makes none to the array |
| Fingerprint.AlikeFields | crates/bridge-conformance/src/schema.rs:166-180 | a change that makes no difference to the fields makes none to the object |
| Conformance.GroupByStep | crates/bridge-conformance/src/diff.rs:1129-1146 | the one pass finds, for every step with a label, its last uninterrupted run of frames |
| Conformance.LastRunIsAll | crates/bridge-conformance/src/diff.rs:1129-1146 | the group of a step holds all its frames if and only if they are one run |
| Conformance.GroupsPartition | crates/bridge-conformance/src/diff.rs:1129-1146 | the groups partition the frames if and only if every step is one run with a non-empty label |
| Conformance.SplitStepLosesFrames | crates/bridge-conformance/src/diff.rs:1129-1146 | a step that comes back keeps its last frame only, and a frame without a step is in no group |
| Conformance.GroupFingerprints | crates/bridge-conformance/src/diff.rs:1148-1158 | each method and kind gets the union of its frames' paths, and none without paths |
| Conformance.CompareNotifications | crates/bridge-conformance/src/diff.rs:1034-1065 | a finding for every kind of notification one side lacks, unless it is skipped, and no other |
| Conformance.CompareKeys | crates/bridge-conformance/src/diff.rs:1067-1123 | a finding for every method and kind whose paths differ outside the allowed ones, listing exactly those, and no other |
| Conformance.Compare | crates/bridge-conformance/src/diff.rs:1019-1127 | the report has exactly the findings of the steps that are not skipped |
| Conformance.ReportFromPrints | crates/bridge-conformance/src/diff.rs:1019-1158 | the report depends on steps, kinds, methods and fingerprints only |
| Conformance.ReportIgnoresPresentation | crates/bridge-conformance/src/diff.rs:1019-1158 | null fields, field order and the order and number of array elements inside result and params change no finding |
| Conformance.ReportMirrored | crates/bridge-conformance/src/diff.rs:1034-1123 | exchanging the transcripts exchanges missing and extra |
| Conformance.NothingReported | crates/bridge-conformance/src/diff.rs:1019-1127 | nothing is reported if and only if every step that is not skipped agrees on its notifications and, outside allowed paths, on its fingerprints |
| ComparedMembers.PrintIsRaw | crates/bridge-conformance/src/schema.rs:52-100 | a path is compared of a response if and only if it has no error field and its first result field can be descended along it, of a notification if and only if its first params field can |
| ComparedMembers.KeyDifferenceIff | crates/bridge-conformance/src/diff.rs:1067-1123 | a difference is reported if and only if, of the raw frames of this method and kind in the last run of the step, one side has exactly these paths and the other not, nobody allows them, and neither step nor method is skipped |
| ComparedMembers.NotificationIff | crates/bridge-conformance/src/diff.rs:1034-1065 | a kind of notification is reported missing or extra if and only if one side of a compared step has it and the other not, unless it is skipped |
| ComparedMembers.OneResponse | crates/bridge-conformance/src/diff.rs:1067-1158 | two responses of the same method, each alone in its step, whose results differ in paths nobody allows are reported with exactly these |
| Hydration.HydrateMissing | crates/amp-bridge/src/index.rs:125-162 | the pass adds what the specification adds, and the count returned is the number of new entries |
| Hydration.ExistingKept | crates/amp-bridge/src/index.rs:125-162 | every entry that was there stays as it was |
| Hydration.AddedShareNothing | crates/amp-bridge/src/index.rs:145-160 | an added entry was scanned and shares neither its thread id nor its amp id with any other entry |
| Hydration.AddedIsNew | crates/amp-bridge/src/index.rs:145-160 | said of the ids themselves: neither thread id nor amp id of an added entry is the thread id or amp id of another |
| Hydration.AddedIffNew | crates/amp-bridge/src/index.rs:145-160 | a scanned entry is added if and only if it shares no id with an entry there when its turn comes |
| Hydration.SecondPassAddsNothing | crates/amp-bridge/src/index.rs:125-162 | a second pass over the same scan, or over any of its entries in any order, adds nothing |

## Left out

- JSON text and its decoding: frames and items are datatypes of the fields the code reads; a member that is absent and one of the wrong type are told apart where the code does.
- Clocks, fresh UUIDs, image files written and the results of polling the network are inputs of the model; every frame carries one clock value.
- Thread and turn ids inside the ACP notifications, which are constant over a turn, and the status and times of replayed turns, which are constants.
- The numbers of a token usage report, and the message the error of a failed amp result is given; both are taken as they come.
- The unified diff text of file changes; a change keeps the old and the new text.
- `KnownDivergence` filtering of the monitor's findings, and the allowlist tables themselves, which are parameters.
- Layer 1 of the comparison (typed decoding and upstream schemas), and the order of findings within a report.
- ChunkKinds.AgreeIffAllRead: is about blocks of which live reads at most the text batch reads; a block with a text member besides its type, which the protocol does not have, is treated one at a time in `LiveBatch.DisagreementShows`.
- MonitorExact.AcceptsExactly: is about the monitor before that filtering.
- WebSocketRoundTrip.RoundTrip: flushes come at line ends, the sink is always ready and lines are within the frame limit; a flush within a line sends the part as a frame of its own, which `WebSocketAdapter.WebSocketBinaryStream.PollFlush` states.
- WebSocketRetried.RetriedRoundTrip: flushes come at line ends, every write is repeated until it goes through, and the bytes are complete lines, none empty or ending in a return; `WebSocketRetries.RetryIsOnce` treats a single pending write of any bytes.
- Errors of the WebSocket transport itself, and shutting it down.
- AcpDemuxRuns.StepKeeps: does not cover cancelled requests, `kill`, or a subscriber whose consumer has gone away.
- What the ACP client answers to an agent's own requests (permissions, files, terminals); they are routed past the requests in the model.
- AcpDemuxRuns.EveryRequestWoken: says nothing of the write of a request registered after the end; the write may fail and end the request.
- RpcClient.WireOrder: assumes that a frame without a method has an id, that a method is a string, and that no request of the server has an id that is waited for; a wait would take such a request for its response.
- Hydration.HydrateMissing: does not cover a failing insert, which would end the pass early; the scan itself and the persistence of the index.
- AmpTurns.RunOwned: turn ids are drawn fresh, and whether turn/started or an interrupt is announced first is not stated.
- AmpCopies.AllTurnsComplete: like `AmpCopies.CopiesAgree` it takes the ids of steered items to be fresh.
- The items an interrupt reads for its notification come from the last turn of the log, which may be another turn's; the model reads them the same way and claims nothing of them.
- The handlers of the amp bridge are modelled on values, one step per lock, so aliasing between the tasks' own copies of a turn is not represented; the table and the log are classes.
- Maps whose iteration order is unspecified are drained in an arbitrary order.
- Process spawning, session replay rings, the thread index's file format, model selection, pairing and command line tools.
