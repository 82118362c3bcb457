# forge-core: the agent-log pipeline and its neighbours, in Dafny

A child agent's stdout and stderr are debounced in bounded memory, stored in a byte-budgeted history that is
also broadcast, cut into lines, and turned by per-agent state machines into an indexed conversation of add,
replace and remove patches. This project models that pipeline and the small protocols and round trips beside it,
and proves what each promises over every input and every run. `dafny verify dfyconfig.toml` checks all of it.

| file | what it models |
|---|---|
| `Text.dfy` | text as bytes, cut into lines the way `split_inclusive('\n')` does, across chunk boundaries |
| `LogMsg.dfy`, `Debounce.dfy` | the debouncing stage and its truncation |
| `MsgStore.dfy`, `Subscription.dfy` | the history, and `history_plus_stream` racing with `push` |
| `Conversation.dfy` | patches on an array (sections 4.1 to 4.3 of RFC 6902) and on a board of positions drawn from a counter |
| `Claude.dfy`, `ClaudeProperties.dfy` | the Claude and Amp processor and its invariant |
| `ClaudeStreaming.dfy`, `ClaudeBlockEntries.dfy` | the life of a streamed block, and how many entries it becomes |
| `ClaudeHistory.dfy` | the model report and the tool entries over a run |
| `ClaudeLogs.dfy`, `AmpResume.dfy` | line framing, what each line is read as, and the Amp restart |
| `ClaudeScreen.dfy`, `AmpScreen.dfy` | the whole Claude and Amp conversation, from what was read alone |
| `Opencode.dfy`, `OpencodeProperties.dfy` | the Opencode share events, and what its maps know of the history |
| `OpencodeBoard.dfy`, `OpencodeEntries.dfy` | what its text and tool entries show, and the whole conversation from the history |
| `PlainText.dfy`, `PlainTextProperties.dfy` | the plain text buffer and processor |
| `PlainTextCuts.dfy` | where the text is cut into entries: at the boundaries asked for, then by size |
| `Cursor.dfy`, `CursorHistory.dfy` | the Cursor coalescer, and the whole conversation from the history |
| `IndexSharing.dfy` | any number of normalizers drawing from one index provider |
| `ExitProtocol.dfy` | exit monitor, OS exit watcher and stop requests |
| `Drafts.dfy` | the drafts table, its send lock and versions, and the follow-up workers |
| `DraftFields.dfy` | what each draft operation writes, and when a draft is queued |
| `Profiles.dfy` | executor profiles: canonical keys, overrides, merge, validation, cache |
| `DiffHunks.dfy`, `DiffExtract.dfy` | unified diff hunks: extract, repair, print, and what is read out of any text |
| `ConfigPath.dfy` | get and set at a path of a JSON configuration |

How to read it. A `method` or `class` follows the source step by step and is proved equal to a function; the
lemmas are about that function. A *board* is the partial array of positions a normalizer has been given: a run is
`Disciplined` when every add takes a free position and every replace a taken one, and `Added` lists the positions
added. A `Supply` is the position a normalizer gets from its k-th draw, so sharing the counter is any increasing
supply, and having it alone is `Own`. A string holds one `char` per byte.

Where a promise does not hold of the code, there is a run that breaks it and the exact condition under which it
holds:

- A plain text chunk that arrives after the time gap while the buffer holds text is dropped, and the next chunk
  overwrites the entry that showed the text before, with or without a size threshold (`LateChunkIsLost`); nothing is
  lost exactly when no chunk is late in this sense (`Conserves`). The reset of the open entry after that flush is never reached.
- A stop that is recorded between the monitor's check and its write can be lost (`StopCanLose`); `RaceDecides` says
  for any number of stops, with failures, exactly when the monitor's verdict stands.
- An Amp restart forgets the tools but not the streams (`StaleStreamOverwrites`); what follows applies to the
  conversation and leaves the user's texts alone exactly when nothing was streaming (`RestartIsSafeIff`). `AmpShows`
  speaks of the runs in which every restart is of that kind.
- Positions are drawn and patches pushed in two steps, so patches of several normalizers need not fit an array in
  the order pushed (`LatePushDoesNotFit`); they do exactly when the adds come in order (`FitsIffInOrder`).
- A Claude message that is stopped after a block was shown, and finalised later, shows the block twice
  (`StopSplitsBlock`); a finalised block is one entry exactly when it never appeared while streaming, or appeared once
  and is still shown (`OneEntryIff`).
- A push that broadcasts before the subscription and records after the copy reaches nobody (`PushCanBeMissed`);
  `DeliveredExactly` says which pushes arrive, by position and byte budget.
- A follow-up worker sends the draft as it read it before it took the lock, so an old text can be sent twice
  (`OldTextIsSentTwice`); it sends the current text exactly when the last write or release since its read, if any,
  left that text (`SendsCurrentText`).
- A draft version can return after a delete (`VersionReturns`); the expected version is met exactly when the
  operations since the row was made, and the version it started with, add up to it (`VersionGuardsExactly`).
- A bare `@@` header is replaced by one without a newline (`BareHeaderSwallowsALine`), and an empty list of hunks
  comes back as one hunk; otherwise printing and reading undo each other exactly when every line ends with a newline
  alone (`RoundTripExactly`).
- The order in which canonicalising meets profile keys changes the outcome exactly when two keys compete for a
  canonical key that nobody holds (`OrderMattersExactly`).
- An Opencode message that turns into the user's after it was shown leaves its entry behind
  (`RoleChangeLeavesEntryBehind`); entries are always up to date exactly when no text event changes a shown segment
  while its message is the user's (`UpToDateIff`).
- An Opencode segment whose message gets its role only after a tool event has split it is never shown
  (`LateRoleLosesText`); which segments have an entry, and what it shows, is `RunShows`.

## Model

| member | source | states |
|---|---|---|
| `Text.SplitSpells` | crates/utils/src/diff.rs:128-128 | cutting at newlines loses nothing and yields lines |
| `Text.SplitUnique` | crates/utils/src/diff.rs:203-206 | the lines of a text are the only lines that spell it |
| `Text.SplitAfter` | crates/executors/src/executors/claude.rs:327-388 | text arriving in two pieces: complete lines of the first, then its remainder carried over, equal cutting the whole |
| `Text.TrimCuts` | crates/executors/src/executors/claude.rs:335-338 | trimming gives the stretch from the first to the last byte that is not white space, or nothing |
| `Debounce.EndsSuffice` | crates/utils/src/stream_ext.rs:17-47 | the first and last COLLECT_LIMIT/2 bytes of a window determine its middle truncation, and a window that fits is all there |
| `Debounce.TruncationIsBalanced` | crates/utils/src/stream_ext.rs:17-35 | what fits is left alone; what does not is cut to exactly the limit: two ends of equal length up to one byte around the marker |
| `Debounce.WindowBuffer.ShrinkMiddle` | crates/utils/src/stream_ext.rs:37-47 | the drain is in range; an even target keeps exactly the two ends of that length |
| `Debounce.WindowBuffer.Extend` | crates/utils/src/stream_ext.rs:113-118 | the buffer is always the window, or its two ends once it overflowed, and never exceeds COLLECT_LIMIT |
| `Debounce.WindowBuffer.Flush` | crates/utils/src/stream_ext.rs:49-73 | flushing gives the truncation of the whole window, however it was chunked, and nothing only for an empty or untyped one |
| `Debounce.Handle` | crates/utils/src/stream_ext.rs:90-145 | one turn of the select loop, timer included, refines the step with unlimited memory |
| `Debounce.DebounceLogs` | crates/utils/src/stream_ext.rs:75-155 | for every sequence of messages, errors and ticks, and after each of them: what has come out is exactly what the reference says is due by then, each window capped on the way out |
| `Debounce.SoFarIsEmitted` | crates/utils/src/stream_ext.rs:90-145 | after any events, without the final flush: a window comes out exactly at a tick, a change of kind or another message, holding all text of its kind since the last of these; an error passes at once and flushes nothing |
| `Debounce.SoFarPreserves` | crates/utils/src/stream_ext.rs:90-145 | what has come out and the window still held spell what was received, up to how text of one kind is cut |
| `Debounce.CaughtUp` | crates/utils/src/stream_ext.rs:119-143 | after a tick or a message that is not text nothing is held back |
| `Debounce.UnlimitedPreserves` | crates/utils/src/stream_ext.rs:75-155 | from any point of any run: errors keep their order, and the messages that come out are the held window and those to come, up to how text of one kind is cut |
| `Debounce.WindowsAreNonEmpty` | crates/utils/src/stream_ext.rs:49-73 | every text that comes out is a non-empty window |
| `Debounce.DebouncePreserves` | crates/utils/src/stream_ext.rs:75-155 | input and output agree after merging adjacent text of one kind, exactly when no window exceeds the limit |
| `MsgStore.Store.Push` | crates/utils/src/msg_store.rs:50-64 | the history is the longest suffix of everything pushed that fits HISTORY_BYTES, or the last message alone; the counter is its exact size |
| `MsgStore.Store.Evict` | crates/utils/src/msg_store.rs:53-60 | the eviction loop stops at the first suffix that leaves room; saturation never distorts the counter |
| `MsgStore.Store.GetHistory` | crates/utils/src/msg_store.rs:90-98 | the messages of that suffix, in order; their payload is within HISTORY_BYTES, or it is the last message alone |
| `MsgStore.RecordAt` | crates/utils/src/msg_store.rs:50-64 | recording at the eviction point gives the longest fitting suffix |
| `MsgStore.SizeCountsPayload` | crates/utils/src/log_msg.rs:66-78 | the size of a stretch of messages is its payload and 14 to 18 bytes a message |
| `MsgStore.CarriedFits` | crates/utils/src/msg_store.rs:50-64 | so the payload retained fits the budget, and one message more would not |
| `Subscription.InvHolds` | crates/utils/src/msg_store.rs:50-111 | every reachable state: no push recorded or broadcast twice, the copy is a stretch of what was recorded, all of it broadcast before the subscription |
| `Subscription.NothingTwice` | crates/utils/src/msg_store.rs:86-111 | over every interleaving of pushes with the subscription, and whatever the lag, nothing is delivered twice |
| `Subscription.CopiedExactly` | crates/utils/src/msg_store.rs:90-111 | the copy holds exactly the pushes recorded by then from which on everything fits HISTORY_BYTES, or the last alone |
| `Subscription.DeliveredExactly` | crates/utils/src/msg_store.rs:86-111 | without lag, the push broadcast at position i is delivered if and only if i is not before the subscription, or the push was recorded before the copy and still within the byte budget |
| `Subscription.OneGapAtMost` | crates/utils/src/msg_store.rs:50-111 | with one pusher, what is missed is one contiguous block between copy and live stream |
| `Subscription.PushCanBeMissed` | crates/utils/src/msg_store.rs:50-111 | a run in which a push is missed |
| `Conversation.HoldsNext` | crates/executors/src/logs/utils/entry_index.rs:22-25 | the next position is free on a board that holds exactly the positions handed out |
| `Conversation.PlayAppend` | crates/executors/src/logs/utils/patch.rs:42-51 | disciplined patch sequences compose, and so do the positions they add |
| `Conversation.MirrorsPlay` | crates/executors/src/logs/utils/patch.rs:42-115 | a disciplined run over consecutive positions applies to the array: each add appends, each replace is in range |
| `Conversation.FitsIffInOrder` | crates/executors/src/logs/utils/patch.rs:42-115 | disciplined patches apply to the array if and only if the adds come in the order of their positions |
| `Conversation.ApplyAt` | crates/executors/src/logs/utils/patch.rs:42-115 | position by position: an add shifts what follows up, a replace changes its position only, a remove shifts what follows down |
| `Conversation.AddedOnce` | crates/executors/src/logs/utils/patch.rs:42-115 | a disciplined run adds each position it fills exactly once and none that was taken |
| `Claude.LogProcessor.NormalizeEntries` | crates/executors/src/executors/claude.rs:696-1148 | the processor with its maps refines the transition function on every event; what that shows is `ClaudeScreen.EventBuilds` |
| `Claude.LogProcessor.HandleAssistant` | crates/executors/src/executors/claude.rs:749-831 | a final message settles its items one by one, in the streamed blocks if it was streamed; what each item shows, streamed or not, is `ClaudeScreen.EventBuilds` |
| `Claude.LogProcessor.HandleUser` | crates/executors/src/executors/claude.rs:833-997 | user texts restart the Amp conversation, tool results replace tool entries |
| `Claude.LogProcessor.HandleStream` | crates/executors/src/executors/claude.rs:1022-1078 | stream events start, extend and drop blocks |
| `Claude.LogProcessor.ApplyDelta` | crates/executors/src/executors/claude.rs:1284-1313 | a delta extends its block and shows it at its own position |
| `ClaudeHistory.ModelIsReportedOnce` | crates/executors/src/executors/claude.rs:1243-1263 | over every run, under either strategy, the model is reported at most once: the first one named |
| `ClaudeProperties.GoodEvent` | crates/executors/src/executors/claude.rs:696-1148 | every event keeps the invariant: live and tool positions are injective and disjoint, tools point at tool entries, live blocks show their text, settled entries stay |
| `ClaudeProperties.RunIsGood` | crates/executors/src/executors/claude.rs:696-1148 | over every run and whoever else draws positions: each position drawn is added once, every replace names one added before, settled entries never change |
| `ClaudeProperties.RunBuildsArray` | crates/executors/src/executors/claude.rs:696-1148 | alone on its provider: every add appends at the current length, every replace is in range, and the provider counts the entries |
| `ClaudeProperties.ResultsReplaceTools` | crates/executors/src/executors/claude.rs:865-996 | a tool result only ever replaces an entry produced by a use of the same tool |
| `ClaudeProperties.LastResultIsShown` | crates/executors/src/executors/claude.rs:865-996 | within one user message the last result for a tool use is what its entry shows |
| `ClaudeHistory.ToolsShowTheirLast` | crates/executors/src/executors/claude.rs:749-997 | over every run: a tool id has an entry exactly when it was used, showing its newest use, or the last result after it with its content and whether it failed |
| `ClaudeHistory.ReusedToolSettles` | crates/executors/src/executors/claude.rs:749-831 | when a tool id is used again its older entry keeps what it showed, and nothing comes back to it |
| `ClaudeStreaming.MessageBegins` | crates/executors/src/executors/claude.rs:1023-1043 | a message that starts is current and has mentioned no block, whatever was there before |
| `ClaudeStreaming.BlockGathers` | crates/executors/src/executors/claude.rs:1278-1386 | a block that is left alone holds exactly its start text, or first delta, and every matching delta while its message is current, whatever other messages do in between |
| `ClaudeStreaming.BlockAddsOnce` | crates/executors/src/executors/claude.rs:1284-1313 | its deltas make one add, at the position it keeps, and otherwise replace there |
| `ClaudeStreaming.BlockAppears` | crates/executors/src/executors/claude.rs:1284-1313 | that position was free until then |
| `ClaudeStreaming.FinalMessageSettles` | crates/executors/src/executors/claude.rs:754-827 | the final message puts its text at that position, or at a free one if the block was not shown, and nothing will come back to it |
| `ClaudeStreaming.FinalMessageDraws` | crates/executors/src/executors/claude.rs:749-831 | a final message draws one position for a new model, and one per item that shows something and was not shown while streaming |
| `ClaudeStreaming.BlockBecomesOneEntry` | crates/executors/src/executors/claude.rs:754-1076 | streamed, among any other messages, and then finalised, a block is exactly one entry: its deltas and its final item add one position, which shows what was gathered, then the final text, unchanged by everything later |
| `ClaudeBlockEntries.BlockAddsPerAppearance` | crates/executors/src/executors/claude.rs:1022-1078 | over every run, restarts, stops and final messages included, the deltas of a block add one position each time it goes from not shown to shown |
| `ClaudeBlockEntries.OneEntryIff` | crates/executors/src/executors/claude.rs:754-1078 | block and final item together are one entry if and only if the block never appeared, or appeared once and is still shown |
| `ClaudeBlockEntries.RunEntries` | crates/executors/src/executors/claude.rs:754-1078 | over a whole run the number of positions the block takes is a function of the history: its appearances, and one more if it is not shown when finalised |
| `ClaudeBlockEntries.StopSplitsBlock` | crates/executors/src/executors/claude.rs:1072-1076 | a run in which a stop before the final message leaves two entries |
| `AmpResume.CounterIsLength` | crates/executors/src/executors/claude.rs:833-863 | the counter equals the length of the conversation |
| `AmpResume.RestartStartsOver` | crates/executors/src/executors/claude.rs:833-863 | removing at index 0 as often as the counter says empties the conversation exactly; the user's texts follow |
| `AmpResume.RestartKeepsInStep` | crates/executors/src/executors/claude.rs:840-863 | after a restart processor and conversation agree if and only if nothing was streaming |
| `AmpResume.RestartIsSafeIff` | crates/executors/src/executors/claude.rs:840-863 | after a restart every continuation applies to the conversation and leaves the user's texts alone, if and only if nothing was streaming |
| `AmpResume.StaleStreamOverwrites` | crates/executors/src/executors/claude.rs:840-847 | a delta after a restart overwrites the user's message |
| `AmpResume.RestartForgets` | crates/executors/src/executors/claude.rs:833-863 | without streams, what follows a restart depends only on the restarting event, later events and the remembered model |
| `ClaudeLogs.ProcessChunk` | crates/executors/src/executors/claude.rs:327-388 | one chunk: complete lines handled, the rest carried over; what a line contributes is `ClaudeLogs.OutputIsRead` |
| `ClaudeLogs.ProcessLogs` | crates/executors/src/executors/claude.rs:306-405 | for every chunking, the patches are those of the whole stdout cut into lines; what they show is `ClaudeScreen.OutputShows` |
| `ClaudeLogs.OutputIsRead` | crates/executors/src/executors/claude.rs:327-405 | the patches are those of the readings of the output in order: a line that decodes is its event, one that does not is a system message with its trimmed text, blank lines and router lines are nothing, and the last unfinished line is a system message |
| `ClaudeLogs.OutputIsRun` | crates/executors/src/executors/claude.rs:327-405 | when every complete line decodes, the processor has run on exactly those events, followed by the entry of the unfinished line |
| `ClaudeLogs.OutputIsGood` | crates/executors/src/executors/claude.rs:306-405 | for every output and decoder, lines that are not JSON and the last unfinished line included: each position drawn is added once, only own positions are replaced, settled entries never change |
| `ClaudeLogs.OutputBuildsArray` | crates/executors/src/executors/claude.rs:306-405 | alone on its provider the whole output builds the array: adds append, replaces are in range, the provider counts the entries |
| `ClaudeLogs.DebouncingIsInvisible` | crates/utils/src/stream_ext.rs:75-155 | unless a window exceeds the limit, the conversation is the same with and without debouncing |
| `ClaudeScreen.EventBuilds` | crates/executors/src/executors/claude.rs:696-1148 | every event, under either strategy unless it restarts, adds and changes exactly the entries spelled out for it: system, model and error reports, each item of a message whether streamed or not, tool results, approvals, blocks, unknown lines |
| `ClaudeScreen.RunShows` | crates/executors/src/executors/claude.rs:696-1148 | over every run the conversation is exactly the screen written out from the events alone: as many positions, each with its entry, nothing else |
| `ClaudeScreen.OutputShows` | crates/executors/src/executors/claude.rs:306-405 | for every output and decoder the conversation is the screen of what was read, lines that are not JSON included |
| `AmpScreen.AmpShows` | crates/executors/src/executors/claude.rs:306-405 | for every Amp output in which no message is streaming at a restart, the array is the screen of what was read, restarts included |
| `AmpScreen.NoStreamsAreCalm` | crates/executors/src/executors/claude.rs:833-863 | in particular whenever Amp sends no stream events |
| `Opencode.ShareProcessor.Handle` | crates/executors/src/executors/opencode.rs:440-803 | the loop body with its eight maps refines the transition function |
| `Opencode.ShareProcessor.HandleText` | crates/executors/src/executors/opencode.rs:513-584 | a text event opens a segment after a break, stores its part and shows the joined text |
| `Opencode.ProcessShareEvents` | crates/executors/src/executors/opencode.rs:440-803 | the whole loop gives the patches of the run |
| `OpencodeProperties.RunTracks` | crates/executors/src/executors/opencode.rs:410-603 | over every run the maps say exactly what the history of events says: segments, breaks, part order, newest texts, roles |
| `OpencodeProperties.JoinIsConcat` | crates/executors/src/executors/opencode.rs:539-546 | the text shown is the concatenation of the texts of all parts in order, those without a text skipped |
| `OpencodeBoard.RunShows` | crates/executors/src/executors/opencode.rs:451-603 | over every run, whatever the roles: a segment has an entry exactly when some event showed it, and the entry is the segment as it stood when last shown: the role, and the first-seen-order concatenation of the newest text of every part; later segments stand later |
| `OpencodeBoard.ShownIffShows` | crates/executors/src/executors/opencode.rs:464-503 | shown means: text while the role is known and not the user's, or such a role while the segment is current and has text |
| `OpencodeBoard.UpToDateIff` | crates/executors/src/executors/opencode.rs:549-583 | every entry shows the newest text of its segment at every moment, if and only if no text event changes a shown segment while its message is the user's |
| `OpencodeBoard.KeptRolesNeverMiss` | crates/executors/src/executors/opencode.rs:549-583 | in particular when no message that had another role is declared the user's |
| `OpencodeBoard.MissedForever` | crates/executors/src/executors/opencode.rs:464-467 | a segment the message has moved on from without showing it is never shown |
| `OpencodeBoard.LateRoleLosesText` | crates/executors/src/executors/opencode.rs:464-467 | so every run of text, tool, text and then a role loses the first text |
| `OpencodeBoard.RoleChangeLeavesEntryBehind` | crates/executors/src/executors/opencode.rs:549-583 | a run with a role that changes to the user's, in which an entry is out of date |
| `OpencodeBoard.ClosedForever` | crates/executors/src/executors/opencode.rs:521-527 | a closed segment stays closed and gets no more text |
| `OpencodeBoard.ToolFreezesText` | crates/executors/src/executors/opencode.rs:585-602 | after a tool event on non-empty text the entry keeps position and content forever, and later text goes to a larger position |
| `OpencodeProperties.RunTidy` | crates/executors/src/executors/opencode.rs:424-438 | whatever the roles: each position drawn is added once, replaces name positions added before |
| `OpencodeEntries.RunShowsTools` | crates/executors/src/executors/opencode.rs:424-438 | over every run a tool part is registered from its first event on, apart from all others, and its entry shows its newest summary |
| `OpencodeEntries.RunShowsHistory` | crates/executors/src/executors/opencode.rs:424-603 | over every run, whatever the roles: the segments and tool parts that were shown stand in the order in which they were first shown, each at exactly one position, each with its entry, and no position holds anything else |
| `OpencodeEntries.PlacesKept` | crates/executors/src/executors/opencode.rs:424-438 | whatever follows, every segment and tool part keeps its position |
| `OpencodeEntries.FixedRolesShow` | crates/executors/src/executors/opencode.rs:451-603 | when each message gets one role, every text entry has it and shows the newest text |
| `PlainText.PlainTextBuffer.Ingest` | crates/executors/src/logs/plain_text_processor.rs:60-83 | the buffer holds the lines of everything ingested, and its exact length |
| `PlainText.PlainTextBuffer.DrainLines` | crates/executors/src/logs/plain_text_processor.rs:86-96 | takes the first lines, at most all, and keeps the length exact |
| `PlainText.PlainTextBuffer.DrainSize` | crates/executors/src/logs/plain_text_processor.rs:100-113 | takes the fewest lines that reach the length, at least one |
| `PlainText.PlainTextBuffer.Flush` | crates/executors/src/logs/plain_text_processor.rs:116-120 | returns everything and empties the buffer |
| `PlainText.IngestIsSplit` | crates/executors/src/logs/plain_text_processor.rs:60-83 | ingesting is cutting the whole text |
| `PlainText.IngestTwice` | crates/executors/src/logs/plain_text_processor.rs:60-83 | ingesting in two pieces is ingesting at once |
| `PlainText.SizeCountBounds` | crates/executors/src/logs/plain_text_processor.rs:100-113 | the lines taken reach the length, and would not without the last |
| `PlainText.PlainTextLogProcessor.Process` | crates/executors/src/logs/plain_text_processor.rs:194-290 | one chunk refines the specification, late chunks included; where that cuts is `PlainTextCuts.ChunkIsCut` |
| `PlainText.PlainTextLogProcessor.CreatePatch` | crates/executors/src/logs/plain_text_processor.rs:293-312 | replaces the open entry or adds one at a fresh position |
| `PlainText.PlainTextLogProcessor.SplitAtBoundaries` | crates/executors/src/logs/plain_text_processor.rs:240-268 | the boundary loop ends when every split takes something out |
| `PlainText.PlainTextLogProcessor.SplitBySize` | crates/executors/src/logs/plain_text_processor.rs:270-282 | the size loop ends and leaves less than the threshold |
| `PlainTextProperties.RunGood` | crates/executors/src/logs/plain_text_processor.rs:194-312 | over every run: each position drawn is added once, the k-th closed entry stands at the k-th position, size-closed entries reach the threshold but not without their last line |
| `PlainTextProperties.Conserves` | crates/executors/src/logs/plain_text_processor.rs:194-290 | closed entries followed by the buffer spell the input, if and only if no chunk came late on a non-empty buffer |
| `PlainTextProperties.NoGapConserves` | crates/executors/src/logs/plain_text_processor.rs:329-346 | without a time gap nothing is lost on any run, and a threshold, 8192 unless another is given, is always in force |
| `PlainTextProperties.OpenFollows` | crates/executors/src/logs/plain_text_processor.rs:240-289 | the open entry is a prefix of the buffer, and all of it unless the predicate asked to wait |
| `PlainTextProperties.ClosedStays` | crates/executors/src/logs/plain_text_processor.rs:249-282 | what is closed stays closed on every continuation |
| `PlainTextProperties.LateChunkIsLost` | crates/executors/src/logs/plain_text_processor.rs:199-212 | with a gap, with or without a size threshold, a run in which a late chunk is dropped and an entry overwritten |
| `PlainTextProperties.LateChunkFlushes` | crates/executors/src/logs/plain_text_processor.rs:199-212 | on every run a late chunk on a non-empty buffer is dropped: the buffer is shown in the open entry and emptied, and nothing is closed |
| `PlainTextProperties.TurnStalls` | crates/executors/src/logs/plain_text_processor.rs:241-268 | a turn of the boundary loop changes nothing, and so repeats forever, exactly for a split on an empty buffer or before the first line |
| `PlainTextCuts.ChunkIsCut` | crates/executors/src/logs/plain_text_processor.rs:194-290 | over every run each chunk that is not dropped is cut as asked: first at every boundary, with exactly as many lines as the predicate answered, at most all, then by size, with the fewest lines that reach the threshold; entries and rest are the lines ingested |
| `PlainTextCuts.BufferIsShort` | crates/executors/src/logs/plain_text_processor.rs:270-282 | then the buffer is empty or below the threshold, unless the predicate asked to wait |
| `PlainTextCuts.NoFurtherSplit` | crates/executors/src/logs/plain_text_processor.rs:240-268 | and the predicate asks for no further split of what the boundaries left |
| `PlainTextCuts.CutsAreDetermined` | crates/executors/src/logs/plain_text_processor.rs:240-282 | there is only one way to cut as asked |
| `Cursor.Normalizer.Handle` | crates/executors/src/executors/cursor.rs:202-468 | the loop body refines the transition function |
| `Cursor.Normalizer.Flush` | crates/executors/src/executors/cursor.rs:230-240 | a parsed event ends the messages it does not continue |
| `Cursor.NormalizeLines` | crates/executors/src/executors/cursor.rs:202-469 | the whole loop gives the patches of the run |
| `Cursor.EventGood` | crates/executors/src/executors/cursor.rs:202-468 | every event keeps the invariant and leaves settled messages alone |
| `Cursor.RunGood` | crates/executors/src/executors/cursor.rs:202-468 | over every run: each position drawn is added once, a completed call only replaces the entry of a tool, live entries show what was gathered |
| `Cursor.MessageGathers` | crates/executors/src/executors/cursor.rs:260-301 | chunks of one kind, with raw lines in between, show as one entry with all their text: their patches add one position, free before, and otherwise replace there |
| `Cursor.IdleAfter` | crates/executors/src/executors/cursor.rs:230-240 | after any other parsed event nothing is being gathered |
| `Cursor.MessageBecomesOneEntry` | crates/executors/src/executors/cursor.rs:230-301 | once ended, the message is exactly one entry: one position added by all its chunks, with all their text, unchanged by everything later |
| `CursorHistory.RunShowsHistory` | crates/executors/src/executors/cursor.rs:202-468 | over every run the conversation is exactly what the history says: each event that opens an entry has one of its own, in that order, showing its whole message, or its call with the last completion, and there is nothing else |
| `CursorHistory.RunShowsCalls` | crates/executors/src/executors/cursor.rs:303-452 | over every run each start of an identified call has an entry of its own: it shows the last completion that followed, and once the id is started again it keeps what it showed then |
| `IndexSharing.SupplyIncreases` | crates/executors/src/logs/utils/entry_index.rs:22-25 | in every schedule each normalizer sees its positions grow and never repeat |
| `IndexSharing.KeepsCombine` | crates/executors/src/logs/utils/entry_index.rs:12-25 | normalizers that keep to their own positions build one board, in any interleaving |
| `IndexSharing.Shared` | crates/executors/src/logs/plain_text_processor.rs:293-312 | for every interleaving: every position handed out is added exactly once, replaces name positions the same normalizer added, and each entry is what its normalizer put there |
| `IndexSharing.SharedAtEveryMoment` | crates/executors/src/logs/plain_text_processor.rs:293-312 | and so it is at every earlier moment, owners included |
| `IndexSharing.LatePushDoesNotFit` | crates/executors/src/logs/utils/patch.rs:42-51 | two normalizers whose patches arrive in an order no array accepts |
| `IndexSharing.OwnedTagged` | crates/executors/src/logs/utils/patch.rs:42-115 | the discipline does not depend on the type of entries |
| `IndexSharing.ClaudeOwned` | crates/executors/src/executors/claude.rs:306-405 | the Claude task, lines that are not JSON included, keeps to the positions it draws |
| `IndexSharing.OpencodeOwned` | crates/executors/src/executors/opencode.rs:424-603 | so does the Opencode processor |
| `IndexSharing.CursorOwned` | crates/executors/src/executors/cursor.rs:202-468 | so does the Cursor coalescer |
| `IndexSharing.PlainTextOwned` | crates/executors/src/logs/plain_text_processor.rs:293-312 | so does the plain text processor |
| `IndexSharing.AnyMixShares` | crates/executors/src/logs/utils/entry_index.rs:12-25 | all of this for every mix of Claude, Opencode, Cursor and plain text normalizers, on every input and in every interleaving |
| `ExitProtocol.StepStoreOnce` | crates/local-deployment/src/container.rs:502-516 | every step keeps: the message store is in the table, in one party's hands, or finished |
| `ExitProtocol.FinishedOnce` | crates/local-deployment/src/container.rs:501-516 | over every interleaving with any number of stops: Finished is pushed at most once, and a finished monitor leaves no child and no store, with Finished pushed or in the hands of one stop |
| `ExitProtocol.RowHolds` | crates/db/src/models/execution_process.rs:362-400 | the row is its last write, and the monitor writes only if its check did not find the process stopped |
| `ExitProtocol.StopStands` | crates/local-deployment/src/container.rs:359-369 | a check that finds the process stopped is final: the row holds what the last stop asked for |
| `ExitProtocol.EarlyStopStands` | crates/local-deployment/src/container.rs:916-934 | so a stop recorded before the check stands, when the check can read the row |
| `ExitProtocol.StopIsTheCause` | crates/local-deployment/src/container.rs:326-369 | when stops are the only cause of the exit, the monitor never writes |
| `ExitProtocol.VerdictIsHonest` | crates/local-deployment/src/container.rs:340-357 | without an exit signal, Completed is written only for a process that ended successfully, Failed only for one that did not or was lost |
| `ExitProtocol.SignalCompletes` | crates/local-deployment/src/container.rs:326-350 | after an exit signal the verdict is Completed, however the process ended |
| `ExitProtocol.RaceDecides` | crates/local-deployment/src/container.rs:359-366 | any number of stops, with failures: the monitor's verdict stands if and only if its write succeeds, its check failed or came before every record, and no stop is recorded after; otherwise the row holds what the last stop asked for, or Running |
| `ExitProtocol.StopCanLose` | crates/local-deployment/src/container.rs:359-366 | a run in which a stop is lost |
| `Drafts.DraftStore.Upsert` | crates/db/src/models/draft.rs:163-215 | inserts at version 0 and not sending, or overwrites and counts; a retry draft without a process is refused |
| `Drafts.DraftStore.ClearAfterSend` | crates/db/src/models/draft.rs:217-243 | empties a follow-up draft and gives the lock back, deletes a retry draft |
| `Drafts.DraftStore.Delete` | crates/db/src/models/draft.rs:245-257 | the row is gone |
| `Drafts.DraftStore.TryMarkSending` | crates/db/src/models/draft.rs:261-282 | succeeds exactly when it takes a free lock on a queued, non-blank draft |
| `Drafts.DraftStore.UpdatePartial` | crates/db/src/models/draft.rs:286-334 | changes the fields given and counts, or does nothing |
| `Drafts.DraftStore.SetQueued` | crates/db/src/models/draft.rs:337-367 | on the expected row only: queued becomes what was asked for, but never true on a blank prompt; nothing else changes but the version |
| `Drafts.LockChanges` | crates/db/src/models/draft.rs:163-367 | the lock is taken by a successful mark only and given back by a clear or delete only |
| `Drafts.LockCounts` | crates/db/src/models/draft.rs:217-282 | over every interleaving: each acquisition but the current one has been given back |
| `Drafts.ReleaseBetween` | crates/db/src/models/draft.rs:217-282 | between two successful marks of one draft there is a clear or a delete of it |
| `Drafts.WriteBetween` | crates/db/src/models/draft.rs:217-334 | and after that release the text is written again before the second mark |
| `Drafts.VersionCounts` | crates/db/src/models/draft.rs:163-366 | within a row's life the version counts modifications exactly |
| `Drafts.LifeStarts` | crates/db/migrations/20250921222241_unify_drafts_tables.sql:11-13 | a new row has version 0 and is not sending |
| `Drafts.VersionGuards` | crates/db/src/models/draft.rs:337-367 | within a row's life `set_queued` with an expected version succeeds if and only if nothing changed since |
| `Drafts.VersionReturns` | crates/db/src/models/draft.rs:245-257 | across a delete it can succeed on another draft |
| `Drafts.VersionGuardsExactly` | crates/db/src/models/draft.rs:337-367 | whatever happened in between, it succeeds if and only if there is a row, and the version its present life started with plus the operations on it since make the expected version |
| `Drafts.StartsAreLocked` | crates/local-deployment/src/container.rs:1430-1554 | over every interleaving of workers and draft operations: every start has its own acquisition, and starts exceed releases by at most one |
| `Drafts.StartFollowsMark` | crates/local-deployment/src/container.rs:1445-1550 | every start follows a successful mark by the same worker |
| `Drafts.SendsCurrentText` | crates/local-deployment/src/container.rs:1430-1550 | over every interleaving a worker with the lock sends the current text if and only if the last write or release since its own read, if any, left the text it read |
| `Drafts.OldTextIsSentTwice` | crates/local-deployment/src/container.rs:1430-1550 | a run in which two workers send one text, the second while another is queued |
| `DraftFields.UpsertWrites` | crates/db/src/models/draft.rs:163-215 | every field is the one given, the lock stays as it was or starts free, and no other row changes |
| `DraftFields.UpdateWrites` | crates/db/src/models/draft.rs:286-334 | each field given is written, each one not given is kept, flag and lock are left alone, and no other row changes |
| `DraftFields.SetQueuedWrites` | crates/db/src/models/draft.rs:337-367 | the flag is set if and only if that was asked for and the prompt is not blank; all other fields but the version stay |
| `DraftFields.MarkWrites` | crates/db/src/models/draft.rs:261-282 | only lock and version change, and only on a queued, free, non-blank draft |
| `DraftFields.ClearWrites` | crates/db/src/models/draft.rs:217-243 | prompt, flag, lock and images are emptied, variant and process are kept; a retry row is gone |
| `DraftFields.FlagFollows` | crates/db/src/models/draft.rs:163-367 | over every run whether a draft is queued follows from the operations alone |
| `DraftFields.QueuedWasAsked` | crates/db/src/models/draft.rs:163-367 | a draft that has become queued was asked for by some operation, and none since has withdrawn it |
| `Profiles.ListReplacements` | crates/executors/src/profile.rs:183-189 | lists every key that is not canonical once |
| `Profiles.KeyStandsFor` | crates/executors/src/profile.rs:17-26 | DEFAULT and GENIE in any case stand for GENIE, every other key for its SCREAMING_SNAKE_CASE form |
| `Profiles.CanonicaliseProfile` | crates/executors/src/profile.rs:181-197 | for every map order: keys become canonical, a canonical key keeps its configuration, others come from a key they stand for; the result is the outcome of some order |
| `Profiles.Canonicalise` | crates/executors/src/profile.rs:181-197 | so for every executor, each in some order of its keys |
| `Profiles.CanonicalIsKept` | crates/executors/src/profile.rs:181-197 | canonical profiles are left as they are |
| `Profiles.OutcomeIsCanonical` | crates/executors/src/profile.rs:190-195 | the outcome for any explicit order of the keys is a canonical form |
| `Profiles.OrderMattersExactly` | crates/executors/src/profile.rs:190-195 | all orders of the keys give the same outcome if and only if no two keys compete |
| `Profiles.CompetitorsMakeOrderMatter` | crates/executors/src/profile.rs:190-195 | with competing keys, two orders that give two outcomes |
| `Profiles.FindDeletion` | crates/executors/src/profile.rs:271-291 | finds something built in that is gone if and only if there is such a thing |
| `Profiles.ComputeOverrides` | crates/executors/src/profile.rs:266-329 | fails exactly when something built in was deleted, naming it |
| `Profiles.MergeWithDefaults` | crates/executors/src/profile.rs:247-263 | configurations of the overrides win, new executors are added |
| `Profiles.RoundTrip` | crates/executors/src/profile.rs:247-329 | merging the overrides into the defaults gives back the current profiles exactly |
| `Profiles.OverridesAreLeast` | crates/executors/src/profile.rs:266-329 | any overrides that give the current profiles contain the computed ones |
| `Profiles.OverridesAreMinimal` | crates/executors/src/profile.rs:266-329 | removing any overriding executor, even an empty one, or any one configuration changes the merge |
| `Profiles.ValidateMerged` | crates/executors/src/profile.rs:332-358 | succeeds exactly when every executor has a fitting default and no reserved name |
| `Profiles.ProfileCache.Load` | crates/executors/src/profile.rs:217-224 | the cache starts as the defaults |
| `Profiles.ProfileCache.UpdateCache` | crates/executors/src/profile.rs:227-244 | succeeds if and only if nothing built in is gone from the canonical form of what was asked for and what it merges to is valid; then the merge is cached, otherwise the cache is left alone and the error names what is wrong |
| `Profiles.AcceptedIsSafe` | crates/executors/src/profile.rs:227-244 | what an accepted update caches is exactly the canonical form of what was asked for, and it is safe |
| `Profiles.CacheStaysSafe` | crates/executors/src/profile.rs:217-244 | after any run of updates, whatever the order of the keys: everything built in is there, keys are canonical, every executor has its default |
| `Profiles.PuttingBackChangesNothing` | crates/executors/src/profile.rs:200-244 | asking for what is cached is accepted and changes nothing |
| `Profiles.UpdateIsDetermined` | crates/executors/src/profile.rs:227-244 | without competing keys the cache after an update does not depend on the order of the keys |
| `Profiles.LookupNeverPanics` | crates/executors/src/profile.rs:368-393 | with a safe cache the lookup finds an agent if and only if the executor is cached: the variant's own if it is cached, that of GENIE otherwise |
| `DiffHunks.ExtractUnifiedDiffHunks` | crates/utils/src/diff.rs:127-192 | the scanning loop refines the fold over lines |
| `DiffHunks.FixHunkHeaders` | crates/utils/src/diff.rs:195-239 | the repair loop refines the repair of each hunk |
| `DiffHunks.PrintedLines` | crates/utils/src/diff.rs:242-262 | printing shaped hunks prints two file lines and all their lines |
| `DiffHunks.ExtractedIsNotBare` | crates/utils/src/diff.rs:127-239 | no hunk taken out of any text has a bare header |
| `DiffHunks.RoundTrip` | crates/utils/src/diff.rs:127-262 | reading back printed hunks gives them with their line endings made newlines |
| `DiffHunks.EmptyComesBackAsOne` | crates/utils/src/diff.rs:130-152 | no hunks come back as one |
| `DiffHunks.RoundTripExactly` | crates/utils/src/diff.rs:127-262 | hunks with a header and body lines survive the round trip if and only if there is one, no header is bare, and every line ends with a newline alone |
| `DiffHunks.BareHeaderSwallowsALine` | crates/utils/src/diff.rs:218-231 | the header filled in for a bare one swallows the first body line |
| `DiffExtract.ExtractReads` | crates/utils/src/diff.rs:127-239 | for every text: each header line opens a hunk that runs on over the body lines below it and ends at any other line, such as one of a further file; a hunk without a body is dropped and a bare header is numbered; text without a header is one numbered hunk of its body lines, or none |
| `DiffExtract.PrintReads` | crates/utils/src/diff.rs:242-262 | any hunks print as the two file lines and each hunk in order, ended by a newline |
| `DiffExtract.DecimalReads` | crates/utils/src/diff.rs:150-150 | the counts in a header are decimal numerals |
| `ConfigPath.GetServers` | crates/server/src/routes/config.rs:332-348 | the object at the path, or nothing |
| `ConfigPath.SetServers` | crates/server/src/routes/config.rs:351-384 | the descent never needs an object where there is none, and sets what the recursive definition sets |
| `ConfigPath.GetSet` | crates/server/src/routes/config.rs:332-384 | what was set is what is read, in every JSON value |
| `ConfigPath.SetKeepsOthers` | crates/server/src/routes/config.rs:351-384 | every diverging path is unchanged, in every JSON value |
| `ConfigPath.SetTwice` | crates/server/src/routes/config.rs:351-384 | setting twice is setting the last |
| `ConfigPath.SetGet` | crates/server/src/routes/config.rs:332-384 | putting back what was read changes nothing if and only if the path leads to an object |

## Left out

- Process spawning, signals, pipes, git and worktree operations, HTTP, WebSocket and SSE routes, authentication, analytics and notifications.
- UTF-8 lossy decoding, ANSI stripping and serde parsing: text is bytes, events arrive decoded, and `ClaudeLogs` takes the decoder as a parameter. Trimming knows ASCII white space only.
- Session id reporting, entry metadata and timestamps, and the formatting of tool actions, tool results and tool labels: a tool entry is its tool, status and result text.
- The entry producer, `format_chunk` and `transform_lines` of the plain text processor: an entry is its content, and a chunk is what the formatter returned. The clock is a flag on the chunk.
- `start_from` of the index provider, other than that a schedule starts at any position.
- The stderr side of Cursor that answers a login message, and the error lines of Opencode: each adds one entry at a fresh position.
- The keys of Opencode maps are tuples of session, message and segment; the string keys of the source are injective only while ids avoid `:` and `#`.
- Broadcast lag beyond which broadcasts a subscriber keeps, and the other stream adapters of the message store.
- Claude and Amp with the Amp strategy when the index provider is shared: the removals then touch entries of others.
- Commit, next action, finalization and the session summary between the monitor's write and its cleanup.
- Liveness of follow-up sending; the draft version is unbounded here. `set_cached`, which replaces the profile cache without checks, and `set_variant`.
- The `similar` text diff behind `create_unified_diff_hunk` and line counts, and the internals of `convert_case`, taken as a function whose canonical keys are stable.
- ConfigPath.SetServers: the descent with a mutable reference is modelled with the objects passed on the way kept in a list and put together at the end, so update in place and aliasing are not captured.
- Conversation.MirrorsPlay: speaks of one normalizer alone on its provider; for several see `IndexSharing.Shared` and `Conversation.FitsIffInOrder`.
