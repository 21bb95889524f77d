# Navop: verified models of its diffs, transcripts, histories and release tools

Navop is a Rust workspace with an AI chat view, an agent runtime and a set of
Python release scripts. This project models the decisions those parts take and
proves properties of them. `dafny verify dfyconfig.toml` checks everything.

| files | what they model |
|---|---|
| `line_diff`, `diff_ops`, `diff_windows`, `unified_patch`, `patch_apply` | the line diff of a tool card: trimming, the table of longest common subsequences, the walk, line numbers, display windows, capped rows, the hunks of a patch, and a reader that applies them |
| `bounded_text` | the byte budgets of streamed text on UTF-8 character boundaries (RFC 3629, section 3) |
| `fenced_blocks` | fenced code blocks in Markdown, and the splitting of an assistant text at its charts |
| `transcript_state`, `transcript`, `transcript_invariant`, `transcript_budget`, `transcript_stream`, `transcript_memory`, `transcript_segments`, `transcript_stuck`, `transcript_cards`, `transcript_rows`, `transcript_requests`, `transcript_lifecycles`, `transcript_single_rows`, `transcript_subagents`, `transcript_adds` | the transcript reducer: a class with the fields of the source whose every method is tied to a state function, and the laws of these functions over single operations and over all runs |
| `tool_groups` | runs of tool cards shown as one group, and the bounded table of groups folded by hand |
| `model_stream` | the resumable stream of model events against one batch function over all chunks |
| `history` | the agent's bounded history and its compaction |
| `dependency_closure` | the shared libraries shipped with the GPU stack, in two passes |
| `py_text`, `changelog_headings`, `changelog_versions`, `changelog_blanks`, `changelog`, `changelog_placing`, `changelog_marker`, `changelog_round_trip`, `changelog_second_upsert` | the release changelog: fences, heading shifts, masking, white space, the insertion marker, upsert and extract |
| `basics` | small shared datatypes and sequence lemmas |

Where the source changes things step by step, the model does: its loops are
loops, its objects are classes. Each such method is proved against a function of
its inputs or of the old state, and the laws are proved about those functions.

Some tempting statements are false of the code. Each is stated here with the
exact condition under which the code does what one would expect:

- The diff is optimal exactly when the trimmed middles fit the table or share no
  line (`DiffMinimalIff`, `FallbackMissesSharedLine`).
- A segment that ends is not always closed: a turn start, a failed turn and
  reasoning after visible text leave its message marked as streaming
  (`SegmentLeftOpenIff`, `FailedTurnStaysOpen`), and nothing later closes it
  (`LeftOpenForGood`).
- A delta is said in full exactly when it fits into its segment under the field
  limit (`DeltaSpeaksIff`).
- A segment closed by an event of another turn takes over that turn
  (`ClosedSegmentTurn`).
- A permission request whose id was answered before is not pending, and its card
  is never answered, as long as the answered card is there: permission cards are
  looked up from the front, all other cards from the end (`PermissionIsAskedOnce`,
  `OnlyFirstIsAnswered`, `SecondAnswerMisses`).
- A new approval is not known as public when an older card of its call has to go
  for it (`ApprovalIsKnownIff`, `ApprovalMarkCanGetLost`).
- Recording into a full history can part a call from its observation: over a run
  of call groups, exactly when a dropped call is answered behind the cut
  (`OrphanIffGroupCut`, `EvictionCanPartACall`).
- Release notes come back from the changelog exactly when no level 6 heading
  stands outside their fences (`ShiftsAreInverse`, `ExtractAfterUpsert`).
- A second identical upsert is refused exactly when the insertion marker stands
  in the replaced entry and not in the notes, or more often in the notes than in
  that entry (`SecondUpsertIsNoOp`, `MarkerCanGetLost`, `MarkerCanDouble`).
- An upsert can make an entry out of a row above the one it replaces, when only
  a white space character other than space, tab and newline kept that row from
  being a heading (`StrippingCanMakeAHeading`).

Decisions of the model:

- Lines in a hunk header follow the code for an empty range (the previous line
  plus one, or 0), not the rule of the `diff -u` output format of POSIX.1-2017,
  which names the line before the range. The first hunk opens when either side
  has no previous number yet, so a change at line 1 opens one hunk more; the
  bound of `HunkCount` allows for it.
- Characters have their UTF-8 widths of 1 to 4 bytes. The budgets of the
  transcript count bytes; offsets in `fenced_blocks` count characters.
- Message ids are fresh naturals where the source draws UUIDs. Cards are
  datatypes where the source keeps JSON; the number of bytes a card takes is a
  parameter, as are the hash of an error text, the test whether a block is a
  chart, the texts shown for a failed or cancelled turn, the resource labels, and what
  is left of a user's text when its inline images are taken out.
- The merge of partial tool calls in a stream is a parameter.
- ELF files, the host's libraries and the search through directories are a
  `World` of functions over finitely many files.
- White space is that of Rust's `trim` in the chat view and that of Python's
  `strip` and `splitlines` in the changelog. The searches of
  `validate_release_notes` are predicates.
- Messages that "have to go" in a budget check are those of `TranscriptBudget.Leaving`,
  a set computed from the state before the check (`CheckIsForeseen`). "Room" for a
  card (`TranscriptRequests.RoomFor`) means that the budget is deferred, or that it
  allows one message and the card's own bytes.
- Counters and lengths are unbounded where the source has `u32` and `usize`.

The laws of upserts about entries hold at a place described by `ChangelogPlacing.PlacedAt`, for
notes whose fences are closed. At the end of the file and above a replaced
heading any white space may stand, except a character other than newline, space
and tab right behind what then reads as a heading. A new entry goes below a
marker that is outside every fence and parted by white space only from the next
heading or the end.

## Model

| member | source | states |
|---|---|---|
| `LineDiff.LinesSpell` | crates/ai_chat_view/src/agent_diff.rs:256-265 | The lines of a text, each with its newline, spell the text up to a missing final newline; no line holds a newline |
| `LineDiff.LinesUnlines` | crates/ai_chat_view/src/agent_diff.rs:256-265 | Splitting the text of any newline-free lines gives these lines back: a trailing newline opens no further line |
| `LineDiff.FillTable` | crates/ai_chat_view/src/agent_diff.rs:364-386 | The table filled in place holds in row i, column j the length of a longest common subsequence of the suffixes from i and j |
| `LineDiff.AlignMid` | crates/ai_chat_view/src/agent_diff.rs:364-413 | The edits put out for the middles, through the table, the one-sided shortcuts or the whole-block fallback, are those of the alignment that `AlignSpells` and `AlignChoosesFirst` describe |
| `LineDiff.AlignSpells` | crates/ai_chat_view/src/agent_diff.rs:364-413 | The alignment spells both middles, and keeps as many lines as a longest common subsequence has when the table fits, none otherwise |
| `LineDiff.AlignChoosesFirst` | crates/ai_chat_view/src/agent_diff.rs:364-413 | Of all scripts of two middles that fit the table the alignment is the one and only that keeps equal next lines and where they differ removes the old one exactly when the longest common subsequence of what is left stays as long; of two that do not fit it is the one that keeps nothing and adds no line in front of a removed one |
| `LineDiff.LcsUpper` | crates/ai_chat_view/src/agent_diff.rs:376-390 | No common subsequence is longer than the table says |
| `LineDiff.KeptIsCommon` | crates/ai_chat_view/src/agent_diff.rs:364-413 | What any edit script keeps is a common subsequence of the two sides it spells |
| `LineDiff.LcsCommonPrefix` | crates/ai_chat_view/src/agent_diff.rs:268-290 | A common front adds its own length to the longest common subsequence |
| `LineDiff.LcsCommonSuffix` | crates/ai_chat_view/src/agent_diff.rs:268-290 | A common end adds its own length to the longest common subsequence |
| `LineDiff.ScriptBalance` | crates/ai_chat_view/src/agent_diff.rs:268-361 | Old lines are kept lines plus removed ones, new lines are kept lines plus added ones |
| `DiffOps.TrimLoops` | crates/ai_chat_view/src/agent_diff.rs:268-290 | The two trimming loops cut the common front and the common end of what is left |
| `DiffOps.ScriptSpells` | crates/ai_chat_view/src/agent_diff.rs:268-361 | For all texts, also beyond the table limit, the script spells the old and the new lines, and added minus removed is the difference of their numbers |
| `DiffOps.RemovedComesFirst` | crates/ai_chat_view/src/agent_diff.rs:268-413 | For all texts, also beyond the table limit, a kept line stands between an added line and any later removed one: each change is its removed lines followed by its added ones |
| `DiffOps.LcsTrim` | crates/ai_chat_view/src/agent_diff.rs:268-290 | Trimming loses nothing: the longest common subsequence is front plus that of the middles plus end |
| `DiffOps.LcsZero` | crates/ai_chat_view/src/agent_diff.rs:364-375 | Two line lists have nothing in common exactly when they share no line |
| `DiffOps.DiffOptimalIff` | crates/ai_chat_view/src/agent_diff.rs:268-413 | The number of context rows is the longest-common-subsequence length of the full line lists if and only if the trimmed middles fit the 250000-cell table or share no line |
| `DiffOps.DiffMinimalIff` | crates/ai_chat_view/src/agent_diff.rs:268-413 | No script relating the two line lists has fewer added and removed lines, again if and only if the middles fit the table or share no line |
| `DiffOps.FallbackMissesSharedLine` | crates/ai_chat_view/src/agent_diff.rs:364-375 | For every length from 501 lines on, two texts that differ everywhere but in their middle line, which the fallback does not keep |
| `DiffOps.NumbersPointAtLines` | crates/ai_chat_view/src/agent_diff.rs:292-361 | Every number of an op points at its own line on its own side, and is missing exactly on the side that has no such line |
| `DiffOps.NumbersRun` | crates/ai_chat_view/src/agent_diff.rs:292-361 | Old numbers run 1 to the number of old lines and new numbers 1 to the number of new lines, in order |
| `DiffOps.DiffTexts` | crates/ai_chat_view/src/agent_diff.rs:268-361 | The loops that number prefix, middle and suffix give the numbered script and both counts |
| `DiffWindows.CollectSpans` | crates/ai_chat_view/src/agent_diff.rs:419-430 | The first loop of the windows: spans from changed op to changed op, more than six positions apart, holding every change |
| `DiffWindows.DisplayWindows` | crates/ai_chat_view/src/agent_diff.rs:419-440 | Windows are non-empty, in bounds and increasing with at least one op between neighbours, and an op lies in one if and only if a changed op is within 3 positions |
| `DiffWindows.FromTexts` | crates/ai_chat_view/src/agent_diff.rs:80-110 | The rows are the first min(12, total) ops near a change, in order; rows plus hidden is the total; the counts are the script's |
| `DiffWindows.RowsEmptyIffLinesEqual` | crates/ai_chat_view/src/agent_diff.rs:80-110 | There is a row to show exactly when the two line lists differ |
| `UnifiedPatch.WeaveRows` | crates/ai_chat_view/src/agent_diff.rs:146-219 | The loop that opens, extends and flushes the current hunk computes the hunks that `HunkIntegrity` and `EmptySidesStart` describe |
| `UnifiedPatch.HunkIntegrity` | crates/ai_chat_view/src/agent_diff.rs:146-238 | For any well-formed rows the hunk bodies are all the rows in order, both header counts are true, and each side's numbers are consecutive from the header's |
| `UnifiedPatch.EmptySidesStart` | crates/ai_chat_view/src/agent_diff.rs:221-238 | For any rows, in every hunk a side without lines starts at 0 when no row before the hunk has a number on that side, and otherwise at the last such number plus one |
| `PatchApply.HunksDoShownEdits` | crates/ai_chat_view/src/agent_diff.rs:132-241 | Applied to the old lines, the hunks of the ops shown up to any point give the new side up to there and the old side after it |
| `PatchApply.PatchApplies` | crates/ai_chat_view/src/agent_diff.rs:80-241 | The hunks of the capped rows apply to the old lines: with nothing hidden they give exactly the new lines, otherwise the new side up to the last shown row and the old side of the rest |
| `PatchApply.HunkCount` | crates/ai_chat_view/src/agent_diff.rs:80-219 | The patch of a summary has a hunk for each display window its rows reach, and at most one hunk more |
| `PatchApply.WindowsAreRuns` | crates/ai_chat_view/src/agent_diff.rs:419-440 | The runs of shown ops are the display windows |
| `BoundedText.Utf8Suffix` | crates/ai_chat_view/src/agent_transcript.rs:1488-1500 | Stepping to the next character boundary gives the longest suffix within the bytes |
| `BoundedText.Utf8Prefix` | crates/ai_chat_view/src/agent_transcript.rs:1480-1486 | Stepping back to a character boundary gives the longest prefix within the bytes |
| `BoundedText.SuffixIsLongest` | crates/ai_chat_view/src/agent_transcript.rs:1488-1500 | The suffix fits, and every longer suffix does not |
| `BoundedText.PrefixIsLongest` | crates/ai_chat_view/src/agent_transcript.rs:1480-1486 | The prefix fits, and every longer prefix does not |
| `BoundedText.TruncateIsRecent` | crates/ai_chat_view/src/agent_transcript.rs:1462-1478 | A truncated text is within the limit: the whole text, or the marker and the longest suffix that fits, or the front of the marker; also for a text that begins with the marker |
| `BoundedText.AppendAfterTruncate` | crates/ai_chat_view/src/agent_transcript.rs:1438-1478 | Truncating and then appending a chunk is appending and then truncating, for every ASCII marker |
| `BoundedText.ChunkingIndependent` | crates/ai_chat_view/src/agent_transcript.rs:1438-1497 | Folding `append_bounded` over any list of deltas from the empty text is truncating their concatenation once, for every limit |
| `BoundedText.TruncateTwice` | crates/ai_chat_view/src/agent_transcript.rs:1462-1478 | Truncating again to a smaller limit is truncating to the smaller limit |
| `FencedBlocks.ExtractFencedCodeBlocks` | crates/ai_chat_view/src/code_block_parse.rs:9-37 | The scan ends and finds the blocks of the specification, in order |
| `FencedBlocks.BlockShape` | crates/ai_chat_view/src/code_block_parse.rs:16-36 | A block's slice is its fence, an info line without newline, its code ending in a newline, and the closing fence; no closing mark lies inside; its language is the first word of the trimmed info |
| `FencedBlocks.TokenIsFirstWord` | crates/ai_chat_view/src/code_block_parse.rs:39-44 | The language of an info line is its first word, in lower case for ASCII letters; exactly a blank line has none |
| `FencedBlocks.NextIsFirst` | crates/ai_chat_view/src/code_block_parse.rs:13-22 | The next block is at the first fence, and the scan stops exactly when that fence is not closed |
| `FencedBlocks.BlocksTile` | crates/ai_chat_view/src/code_block_parse.rs:9-37 | Blocks are increasing, disjoint and in range, and each slice starts and ends with three backticks |
| `FencedBlocks.AssistantPieces` | crates/ai_chat_view/src/agent_transcript.rs:1631-1660 | The splitting of an assistant text at its chart blocks, as the specification cuts it |
| `FencedBlocks.PiecesTile` | crates/ai_chat_view/src/agent_transcript.rs:1631-1660 | The pieces laid out in order spell the text: only white space between them is lost and, at a chart, the lines of its fence; without a chart the one piece is the text itself |
| `FencedBlocks.ChartsAreAccepted` | crates/ai_chat_view/src/agent_transcript.rs:1631-1660 | The codes of the chart pieces are those of the blocks that parse as charts, all of them and in order; beside charts no text is blank or has white space at an end |
| `History.RuntimeHistory.Record` | crates/agent_runtime/src/history.rs:104-110 | The item is appended and the oldest ones beyond the capacity go |
| `History.RuntimeHistory.RecordContextSummary` | crates/agent_runtime/src/history.rs:149-158 | A blank summary is not recorded, any other one is |
| `History.RuntimeHistory.RecordToolsDeclared` | crates/agent_runtime/src/history.rs:181-186 | A declaration is recorded unless it repeats the latest one |
| `History.RuntimeHistory.LastDeclaredTools` | crates/agent_runtime/src/history.rs:169-178 | The backward search finds the latest declaration, or nothing |
| `History.RuntimeHistory.CompactionToolBoundary` | crates/agent_runtime/src/history.rs:257-296 | The decrementing loops reach the largest cut at or below the given index that is not refused; `RefusedIffInside` says which are |
| `History.RuntimeHistory.CompactionSplitIndex` | crates/agent_runtime/src/history.rs:247-255 | The split index, and when there is none |
| `History.RuntimeHistory.CompactOldItems` | crates/agent_runtime/src/history.rs:220-240 | The new items and the answer, for a blank summary, a refused compaction and a compaction |
| `History.CompactionIsBest` | crates/agent_runtime/src/history.rs:220-296 | The cut is the largest index at or below len - min(max(keep,1), len-1) that is not strictly inside of a group; the result is one summary with that count and the untouched suffix; nothing happens exactly when every index there is inside of one |
| `History.RefusedIffInside` | crates/agent_runtime/src/history.rs:257-296 | A cut is refused if and only if it is strictly inside of a group: observations with the calls in front of them, and one answer with reasoning in front of these |
| `History.CompactionShrinks` | crates/agent_runtime/src/history.rs:220-240 | Compaction never lengthens a history and keeps its last item |
| `History.NoCallParted` | crates/agent_runtime/src/history.rs:257-296 | A run of calls followed by its observations is wholly summarised or wholly kept, and not parted from its reasoning |
| `History.RecordKeepsRecent` | crates/agent_runtime/src/history.rs:104-110 | Over any run of records a history is the most recent part of all that was recorded |
| `History.EvictionIsLegalIff` | crates/agent_runtime/src/history.rs:104-110 | One record into a history cuts outside of every group exactly when the history is not full or no group holds its two oldest items |
| `History.EvictionCanPartACall` | crates/agent_runtime/src/history.rs:104-110 | A concrete record that leaves an observation without its call |
| `History.OrphanIffGroupCut` | crates/agent_runtime/src/history.rs:104-110 | Over any run of records of call groups, calls that still wait for their observation included, a history keeps an observation without its call if and only if its overflow parts a call from its answer; when no call waits that is exactly when the overflow ends strictly inside of a group |
| `History.RunStaysBoundedAndDistinct` | crates/agent_runtime/src/history.rs:84-186 | Over every run of records, declarations and compactions a history stays within its capacity and neighbouring declarations differ |
| `History.DeclaredIsLatest` | crates/agent_runtime/src/history.rs:169-186 | After a declaration is recorded it is the latest one |
| `History.DeclarationJoins` | crates/agent_runtime/src/history.rs:181-186 | A declaration goes behind all that was there, the oldest item giving way in a full history; one that repeats the latest declaration changes nothing |
| `ModelStream.StreamState.Next` | crates/ai_chat_view/src/bridge.rs:193-300 | One step of the unfold puts out the head of what remains and leaves the rest; after the end nothing comes |
| `ModelStream.StreamState.Absorb` | crates/ai_chat_view/src/bridge.rs:222-256 | Taking a chunk in moves its events into the queue without changing what remains to be put out |
| `ModelStream.Drain` | crates/ai_chat_view/src/bridge.rs:181-301 | Stepping to the end puts out exactly the batch of all items: nothing lost, doubled or reordered |
| `ModelStream.StreamTells` | crates/ai_chat_view/src/bridge.rs:181-301 | The stream ends once, at its last output; its text deltas concatenate to all content before the first error, reasoning likewise; usage is told once, the first one; the end is that error or Completed with the whole text, the merged calls and the last usage |
| `ModelStream.OneEnd` | crates/ai_chat_view/src/bridge.rs:270-297 | Exactly the last output ends the stream |
| `ModelStream.EndCarries` | crates/ai_chat_view/src/bridge.rs:270-297 | The last output carries the first error, or the response folded from all chunks |
| `ModelStream.CollectModelStream` | crates/agent_runtime/src/model/client.rs:196-226 | The collecting loop computes the collection of the specification |
| `ModelStream.CollectIsSummary` | crates/agent_runtime/src/model/client.rs:196-226 | Collecting any stream gives its first error, or else its last response, or without one the text deltas and calls that were streamed; a usage the response lacks is the last one an event reported, or else the first one a response carried |
| `ModelStream.CollectUndoesStreaming` | crates/ai_chat_view/src/bridge.rs:181-301 | Collecting a streamed response gives the whole response, or its error |
| `ModelStream.CollectUndoesServing` | crates/agent_runtime/src/model/client.rs:173-226 | Collecting the events a finished response is served as gives that response back |
| `DependencyClosure.NeededIsReachable` | script/package-linux-gpu-stack.py:448-508 | What a consumer needs and is shipped is reachable |
| `DependencyClosure.ScanFile` | script/package-linux-gpu-stack.py:476-508 | The loop over one DT_NEEDED list: all of it is provided, left to the desktop or collected, new libraries wait in the queue, and it fails only for a reachable library that is not there |
| `DependencyClosure.MissingIsBroken` | script/package-linux-gpu-stack.py:490-499 | A reachable library that is not there is missing for some consumer that needs it |
| `DependencyClosure.CollectClosure` | script/package-linux-gpu-stack.py:448-508 | The worklist ends; it collects exactly the sonames reachable through shipped needs, scans every consumer once, and records exactly the desktop sonames met; it fails if and only if a consumer has the wrong machine or a reachable library is missing, and names that consumer, or the library and a consumer that needs it |
| `DependencyClosure.FindGraphicsRoots` | script/package-linux-gpu-stack.py:640-676 | The roots of the second pass: entry libraries the binary does not reach and the drivers found; missing ones fail, an absent second driver does not |
| `DependencyClosure.PayloadClosed` | script/package-linux-gpu-stack.py:631-693 | After the merge the payload is closed under need, and a library is in the client group if and only if the binary reaches it |
| `DependencyClosure.CollectPayload` | script/package-linux-gpu-stack.py:629-693 | On success the roots of the graphics pass are exactly the entry libraries the binary does not reach and the drivers found; a library is in the payload if and only if the binary or one of these needs it, or it is such an entry; it is closed under need, with the client group for exactly what the binary reaches; the host is asked for exactly the desktop sonames some file of either pass needs, on behalf of such a file, one of the first pass if there is one; the call fails exactly when a closure is broken, or an entry or the software driver is missing |
| `Transcript.AgentTranscript.constructor` | crates/ai_chat_view/src/agent_transcript.rs:128-142 | A fresh transcript is the empty state |
| `Transcript.AgentTranscript.Apply` | crates/ai_chat_view/src/agent_transcript.rs:412-454 | The whole new state of `apply`, for all 18 event kinds, repeated terminal events included; what each kind leaves is told by the laws of `TranscriptAdds` |
| `Transcript.AgentTranscript.AppendTextDelta` | crates/ai_chat_view/src/agent_transcript.rs:611-624 | A text delta gives the state that `TextPuts` and `DeltaSpeaksIff` describe |
| `Transcript.AgentTranscript.AppendReasoningDelta` | crates/ai_chat_view/src/agent_transcript.rs:626-660 | A reasoning delta, which leaves a segment that has text, gives the state that `ReasoningPuts` and `ReasoningGoesToBlank` describe |
| `Transcript.AgentTranscript.Finalize` | crates/ai_chat_view/src/agent_transcript.rs:662-686 | The loops and field updates of a final text give the state that `FinalTextSpells` describes |
| `Transcript.AgentTranscript.CloseStreamingSegment` | crates/ai_chat_view/src/agent_transcript.rs:688-701 | Closing the segment being written gives the state that `ClosedSegmentSpells` and `ClosedSegmentTurn` describe |
| `Transcript.AgentTranscript.UpsertStatusRow` | crates/ai_chat_view/src/agent_transcript.rs:703-722 | The loops and field updates of a status change give the state that `StatusPuts` and `TitlesShareARow` describe |
| `Transcript.AgentTranscript.UpsertPlanRow` | crates/ai_chat_view/src/agent_transcript.rs:732-757 | The loops and field updates of a plan update give the state that `PlanPuts` and `PlansShareARow` describe |
| `Transcript.AgentTranscript.PushToolCallCard` | crates/ai_chat_view/src/agent_transcript.rs:759-787 | The loops and field updates of a tool call give the state that `ToolCallAdds` and `ToolCallLifecycle` describe |
| `Transcript.AgentTranscript.ApplyToolObservation` | crates/ai_chat_view/src/agent_transcript.rs:789-851 | The loops and field updates of an observation give the state that `ObservationLands` and `ObservationRecreates` describe |
| `Transcript.AgentTranscript.PushToolConfirmation` | crates/ai_chat_view/src/agent_transcript.rs:520-557 | The loops and field updates of a question give the state that `QuestionAdds` and `QuestionLifecycle` describe |
| `Transcript.AgentTranscript.PushPublicMcpApproval` | crates/ai_chat_view/src/agent_transcript.rs:559-587 | The loops and field updates of an approval request give the state that `ApprovalAdds`, `ApprovalIsAskedOnce` and `ApprovalIsKnownIff` describe |
| `Transcript.AgentTranscript.PushAcpPermission` | crates/ai_chat_view/src/agent_transcript.rs:235-283 | The search from the front and the field updates of a permission request give the state that `PermissionAdds` and `PermissionIsAskedOnce` describe |
| `Transcript.AgentTranscript.ResolveAcpPermission` | crates/ai_chat_view/src/agent_transcript.rs:286-303 | An answer gives the state that `PermissionIsAnswered` describes: the first card of the id is rejected when the option's kind starts with reject, approved otherwise, with the option's name |
| `Transcript.AgentTranscript.CancelAcpPermission` | crates/ai_chat_view/src/agent_transcript.rs:306-314 | A withdrawal gives the state that `PermissionIsAnswered` describes: the first card of the id is cancelled, with no option's name |
| `Transcript.AgentTranscript.FinishSubagentCard` | crates/ai_chat_view/src/agent_transcript.rs:1027-1037 | The loops and field updates of a subagent's end give the state that `SubagentEnds` describes |
| `Transcript.AgentTranscript.UpsertActiveSubagent` | crates/ai_chat_view/src/agent_transcript.rs:1039-1059 | The loops and field updates of a subagent's new data give the state that `UpsertGivesWay` describes |
| `Transcript.AgentTranscript.RemoveAt` | crates/ai_chat_view/src/agent_transcript.rs:1223-1247 | Removing a message gives the whole new state, with everything that remembers its id gone |
| `Transcript.AgentTranscript.EnforceTheBudget` | crates/ai_chat_view/src/agent_transcript.rs:1091-1129 | Truncating fields and evicting gives the state that `FieldsAreCut`, `EnforceIsLeastEviction` and `CheckIsForeseen` describe |
| `Transcript.AgentTranscript.CacheInput` | crates/ai_chat_view/src/agent_transcript.rs:1135-1152 | The whole new state of caching a tool call's raw input |
| `Transcript.AgentTranscript.RecordTerminalEvent` | crates/ai_chat_view/src/agent_transcript.rs:1159-1171 | Recording a terminal event gives the state that `RefusedIffRecent` and `EndsRepeatIff` describe, and tells whether it was new |
| `Transcript.AgentTranscript.ApplyAcpFailure` | crates/ai_chat_view/src/agent_transcript/acp.rs:39-48 | A failed connection gives the state that `FailurePuts` and `TurnEndsOnce` describe, and tells whether it was new |
| `Transcript.AgentTranscript.FlushDeferredBudget` | crates/ai_chat_view/src/agent_transcript.rs:148-154 | Flushing gives the state that `FlushMeetsBudgets` describes |
| `TranscriptInvariant.ApplyKeeps` | crates/ai_chat_view/src/agent_transcript.rs:412-728 | Every event keeps the invariant |
| `TranscriptInvariant.EveryRunIsConsistent` | crates/ai_chat_view/src/agent_transcript.rs:412-728 | After every run of the modelled operations (events, pushes, approval and permission requests and their answers, connection status and errors, budget deferral, clearing) message ids are distinct; the streaming id names exactly one assistant text still marked streaming, the status ids exactly one unfinished status each, and no two of them are the same; the plan id names a plan row |
| `TranscriptBudget.VictimIsNext` | crates/ai_chat_view/src/agent_transcript.rs:1091-1129 | The victim is the next of the order "unprotected, oldest first, then protected, oldest first", and its removal changes nobody else's protection |
| `TranscriptBudget.EverythingCounts` | crates/ai_chat_view/src/agent_transcript.rs:1250-1265 | A list weighs the bytes of all contents that are no cards, of all reasonings and of all status titles put together, and the sizes of its cards; it is over budget exactly when that or the number of messages is too much |
| `TranscriptBudget.ProtectedIff` | crates/ai_chat_view/src/agent_transcript.rs:1406-1436 | The protected messages are what is still written, status rows not done, running calls and subagents, and requests that wait for their answer |
| `TranscriptBudget.FieldsAreCut` | crates/ai_chat_view/src/agent_transcript.rs:1268-1404 | Field truncation leaves the recent part of a text, its reasoning and a status title; of a card, the recent part of each of its texts and of those of its first items within their own limits; nothing else of a message changes |
| `TranscriptBudget.EnforceIsLeastEviction` | crates/ai_chat_view/src/agent_transcript.rs:1091-1129 | After field truncation exactly the first k of that order go, for the least k with which the rest, weighed as in `EverythingCounts`, meets both budgets; survivors keep their order and the drop counter grows by k; a deferred budget changes nothing |
| `TranscriptBudget.CheckIsForeseen` | crates/ai_chat_view/src/agent_transcript.rs:1091-1129 | Who goes in a budget check is known before it, message by message: a message goes if and only if with everything ahead of it in that order gone the rest is still over budget |
| `TranscriptBudget.UnfinishedAtTheEnd` | crates/ai_chat_view/src/agent_transcript.rs:1091-1129 | A running call or subagent or a pending request at the end goes if and only if it is over budget all alone, and then nothing is left |
| `TranscriptBudget.ProtectedGoLast` | crates/ai_chat_view/src/agent_transcript.rs:1406-1436 | While an unprotected message stays no protected one goes |
| `TranscriptBudget.FieldsAgain` | crates/ai_chat_view/src/agent_transcript.rs:1268-1323 | Truncating the fields of a message a second time changes nothing, for every card |
| `TranscriptBudget.EnforceTwice` | crates/ai_chat_view/src/agent_transcript.rs:1091-1129 | Enforcing the budget a second time changes nothing |
| `TranscriptBudget.FlushMeetsBudgets` | crates/ai_chat_view/src/agent_transcript.rs:148-154 | Flushing a deferred budget meets both budgets at once, and flushing or enforcing again changes nothing |
| `TranscriptStream.NothingSaidIsLost` | crates/ai_chat_view/src/agent_transcript.rs:456-701 | Over every run of events that drops no message and in which each delta fits into its segment, each closed segment holds no chart and each final text confirms what was streamed, the assistant texts are the text deltas in order and the reasoning parts are the reasoning deltas in order |
| `TranscriptStream.DeltaSpeaksIff` | crates/ai_chat_view/src/agent_transcript.rs:611-660 | A text or reasoning delta is added in full to what is said, and nothing else is, if and only if its bytes and those the segment holds of its kind are within the field limit |
| `TranscriptStream.ReasoningGoesToBlank` | crates/ai_chat_view/src/agent_transcript.rs:626-660 | A reasoning delta goes to exactly one message, which has no visible text; all other rows stay |
| `TranscriptStream.OthersAreQuiet` | crates/ai_chat_view/src/agent_transcript.rs:456-728 | Every other event leaves the list of assistant texts and their reasoning as it is, one by one, unless it drops a message, closes a segment that holds a chart, or is a final text that says something else |
| `TranscriptMemory.RefusedIffRecent` | crates/ai_chat_view/src/agent_transcript.rs:1159-1171 | Over any sequence of keys the recorded ones are exactly the last 1024 accepted, so a key is refused if and only if it is among them |
| `TranscriptMemory.CacheInputOk` | crates/ai_chat_view/src/agent_transcript.rs:1135-1157 | The latest input of a call is cached unless oversized, the newest 128 stay in order |
| `TranscriptMemory.MemoriesStayBounded` | crates/ai_chat_view/src/agent_transcript.rs:1135-1171 | After every run of the modelled operations set and queue, map and queue agree, without repetition, within 1024 and 128 entries and the size cap |
| `TranscriptMemory.TurnEndsOnce` | crates/ai_chat_view/src/agent_transcript.rs:412-454 | A turn's end or a question counts once: the same terminal event again, a second connection failure for it, the event after the failure and the failure after the event leave no second trace |
| `TranscriptMemory.EndsRepeatIff` | crates/ai_chat_view/src/agent_transcript.rs:1526-1545 | Behind a terminal event another one is a repetition if it is the same (an end of the same turn, or a question of the same turn, call and question hash), and only if that or if it was one before; other events never are |
| `TranscriptSegments.SegmentLeftOpenIff` | crates/ai_chat_view/src/agent_transcript.rs:412-701 | An event leaves the message of the segment being written marked as streaming, with nothing pointing at it, if and only if it is a turn start, a turn failure that is no repetition, or a reasoning delta behind visible text, and its budget check does not evict that message |
| `TranscriptSegments.FailedTurnStaysOpen` | crates/ai_chat_view/src/agent_transcript.rs:589-597 | Any text followed by a failure of its turn stays marked as streaming with nothing pointing at it, with the budget deferred or enforced, as long as both messages fit it |
| `TranscriptSegments.ClosedSegmentTurn` | crates/ai_chat_view/src/agent_transcript.rs:688-701 | All the messages a closed segment becomes carry the turn of the closing event, every other message stays; without a chart in it the segment becomes one message of the same text and reasoning |
| `TranscriptStuck.LeftOpenForGood` | crates/ai_chat_view/src/agent_transcript.rs:412-728 | Over every later run of the modelled operations a message left open stays marked as streaming with nothing pointing at it exactly as long as it is in the transcript |
| `TranscriptCards.FinalTextSpells` | crates/ai_chat_view/src/agent_transcript.rs:662-686 | A final text leaves new finished messages where the segment stood or at the end; they carry the turn, consecutive ids and, on the first, the reasoning, and spell the text but for white space between them and fence lines at charts; no other message changes |
| `TranscriptCards.ClosedSegmentSpells` | crates/ai_chat_view/src/agent_transcript.rs:688-701 | A segment that is closed becomes new finished messages where it stood; they carry the turn, consecutive ids and, on the first, its reasoning, and spell its text but for white space between them and fence lines at charts; no other message changes |
| `TranscriptCards.ObservationLands` | crates/ai_chat_view/src/agent_transcript.rs:789-851 | An observation changes the last card of its call and no other message: success, summary, capped text and files, target, resource label, the inputs that come with it, and its duration; the card runs on if it ran |
| `TranscriptCards.ObservationRecreates` | crates/ai_chat_view/src/agent_transcript.rs:789-851 | An observation of a call without a card adds one behind all messages that shows all of the observation, as that of a call that is over |
| `TranscriptCards.TitlesAreOneRow` | crates/ai_chat_view/src/agent_transcript.rs:703-722 | However many status changes come in a row, the last one alone gives the same transcript |
| `TranscriptCards.PlanIsOneRow` | crates/ai_chat_view/src/agent_transcript.rs:732-757 | Two plans in a row within a turn are the second one |
| `TranscriptRows.RunThins` | crates/ai_chat_view/src/agent_transcript.rs:412-454 | Over any run of the modelled operations that does not concern a call, request, subagent or plan, its cards stay as they are within the field limits, in their order, or go; none is added |
| `TranscriptRequests.PushedStaysIff` | crates/ai_chat_view/src/agent_transcript.rs:1091-1129 | An unfinished card just pushed stays through the budget check if and only if the budget is deferred or has room for that card alone; without that room nothing stays |
| `TranscriptRequests.ApprovalIsAskedOnce` | crates/ai_chat_view/src/agent_transcript.rs:559-587 | After an approval request one is pending if and only if one was before or there is room for the new card; exactly then asking again under its id changes nothing |
| `TranscriptRequests.ApprovalIsKnownIff` | crates/ai_chat_view/src/agent_transcript.rs:559-587 | A new approval leaves its call known as public if and only if there is room for the card and no older card of the call has to go for it |
| `TranscriptRequests.ApprovalMarkCanGetLost` | crates/ai_chat_view/src/agent_transcript.rs:1223-1247 | At a cap of one message an approval that takes the place of an answered one of its call is pending but not known as public |
| `TranscriptRequests.FoundIsFirst` | crates/ai_chat_view/src/agent_transcript.rs:956-965 | The lookup of a permission finds the first card of its id |
| `TranscriptRequests.OnlyFirstIsAnswered` | crates/ai_chat_view/src/agent_transcript.rs:956-976 | After every run of the modelled operations each card of a permission id but the first waits for its answer, however often that was given |
| `TranscriptRequests.PermissionIsAskedOnce` | crates/ai_chat_view/src/agent_transcript.rs:235-283 | After every run, a permission request leaves one pending if and only if one was before, or there is room for the new card and no card of the id is there or the first of them has to go; exactly then asking again under the id changes nothing |
| `TranscriptRequests.SecondAnswerMisses` | crates/ai_chat_view/src/agent_transcript.rs:241-303 | Asked, answered, asked again and answered again, with the budget deferred: the first card took both answers, the second waits, and no request of the id counts as pending |
| `TranscriptRequests.PermissionIsAnswered` | crates/ai_chat_view/src/agent_transcript.rs:286-316 | An answered or withdrawn permission shows on the first card of its id: cancelled when it is withdrawn, rejected when the option's kind begins with reject, approved otherwise, with the option's name and the rest as it was; what is left is the list within the field limits, no other message changed, without exactly those who have to go; it is no longer pending unless the answered card has to go |
| `TranscriptRequests.ConfirmIsAnswered` | crates/ai_chat_view/src/agent_transcript.rs:866-873 | An answered confirmation shows the decision on the last card of its call, the rest of which stays; what is left is the list within the field limits, no other message changed, without exactly those who have to go; it is no longer pending unless the answered card has to go |
| `TranscriptLifecycles.ToolCallLifecycle` | crates/ai_chat_view/src/agent_transcript.rs:759-862 | A call is started, observed and ended, with any run of other operations in between and afterwards: the new card is there exactly when there is room for it; as long as it is there in the end it is the last of its call, not running, with the outcome of the end and the observed summary within the field limits; the end leaves no cached input |
| `TranscriptLifecycles.QuestionLifecycle` | crates/ai_chat_view/src/agent_transcript.rs:520-557 | A question is asked and answered, with any run of other operations in between and afterwards: the new card is there, and pending, exactly when there is room for it; as long as it is there it is the last of its call, pending until the answer and with that decision from then on |
| `TranscriptSingleRows.TitlesShareARow` | crates/ai_chat_view/src/agent_transcript.rs:703-722 | However many status changes come one after another, each with its budget check: as long as the row of the first is there it is the active one, shows the last title within the field limits, and no message was added |
| `TranscriptSingleRows.PlansShareARow` | crates/ai_chat_view/src/agent_transcript.rs:732-757 | Within a turn, however many plans come and whatever else happens in between: as long as the row of the first is there it is the one remembered, shows the latest plan within the field limits, and no other plan row was added |
| `TranscriptSubagents.UpsertGivesWay` | crates/ai_chat_view/src/agent_transcript.rs:1039-1059 | New data replaces the entry of its id in place or joins at the end; when that makes 65 entries exactly one goes, the first finished one, and a running one, the oldest, only when all 65 run |
| `TranscriptSubagents.PanelStaysBounded` | crates/ai_chat_view/src/agent_transcript.rs:1003-1059 | After every run of the modelled operations the panel holds at most 64 subagents, each id once |
| `TranscriptSubagents.SubagentEnds` | crates/ai_chat_view/src/agent_transcript.rs:1027-1090 | A known subagent's end shows on its last card, if that is still there, and on no other message, and in its panel entry; the summary changes only when there is a new one |
| `TranscriptSubagents.SubagentTells` | crates/ai_chat_view/src/agent_transcript.rs:1019-1025 | A known subagent's news shows on its last card, if that is still there, and on no other message, and in its panel entry; only the summary changes |
| `TranscriptSubagents.KnownIff` | crates/ai_chat_view/src/agent_transcript.rs:1061-1078 | A subagent is known exactly when it has a card or is in the panel; it is known as its last card, or as a panel entry of its id when it has none |
| `TranscriptAdds.UserMessageAdds` | crates/ai_chat_view/src/agent_transcript.rs:396-471 | A user message adds one message behind all others, with a new id, the event's turn, the user's role, the event's text without its inline images, no reasoning, not streaming; then exactly those of `Leaving` go, none of them when the budget is deferred |
| `TranscriptAdds.CancellationAdds` | crates/ai_chat_view/src/agent_transcript.rs:589-609 | A cancelled turn that did not end before ends the status row and the segment and adds one such message of the system's role that says so |
| `TranscriptAdds.FailureAdds` | crates/ai_chat_view/src/agent_transcript.rs:589-609 | A failed turn that did not end before ends the status row, lets go of the segment and adds one such message that tells its reason |
| `TranscriptAdds.ToolCallAdds` | crates/ai_chat_view/src/agent_transcript.rs:759-787 | A tool call ends the status row and the segment and adds one card in the event's turn: running, with the event's call, name, action and input within the card's limit, and nothing observed |
| `TranscriptAdds.SubagentAdds` | crates/ai_chat_view/src/agent_transcript.rs:1003-1017 | A subagent ends the status row and the segment and adds one card in the event's turn: running, with the event's id, name and task within the card's limit |
| `TranscriptAdds.QuestionAdds` | crates/ai_chat_view/src/agent_transcript.rs:520-557 | A question asked for the first time ends the status row and adds one pending card in the event's turn, with its call, tool, question and at most 64 pending calls within their limits, and its input |
| `TranscriptAdds.InputIsAskedFor` | crates/ai_chat_view/src/agent_transcript.rs:875-894 | The input a question shows is the event's own, or that of the last card of its call, or empty when there is neither |
| `TranscriptAdds.ApprovalAdds` | crates/ai_chat_view/src/agent_transcript.rs:559-587 | An approval request that does not pend adds one pending card in the current turn, with its call, tool, question and input within the card's limit |
| `TranscriptAdds.PermissionAdds` | crates/ai_chat_view/src/agent_transcript.rs:241-283 | A permission request that does not pend adds one pending card in the current turn, with its tool, summary, details and at most 64 options within their limits, none of them selected |
| `TranscriptAdds.RowsAdd` | crates/ai_chat_view/src/agent_transcript.rs:372-399 | System, user and compaction rows say what they are given, in the current turn |
| `TranscriptAdds.TextPuts` | crates/ai_chat_view/src/agent_transcript.rs:611-624 | A text delta ends the status row and makes the segment's text longer, every other message staying, or opens a segment of the event's turn that holds it alone |
| `TranscriptAdds.ReasoningPuts` | crates/ai_chat_view/src/agent_transcript.rs:626-660 | A reasoning delta ends the status row and makes the segment's reasoning longer, every other message staying; without a segment, or behind visible text, a new segment of the event's turn holds it alone |
| `TranscriptAdds.StatusPuts` | crates/ai_chat_view/src/agent_transcript.rs:703-722 | A status change shows its title on the active row, every other message staying, or on a new row of the event's turn; the row is being written exactly until it is done, and then none is active |
| `TranscriptAdds.PlanPuts` | crates/ai_chat_view/src/agent_transcript.rs:732-757 | A plan shows on the turn's plan row, every other message staying, or on a new row of the turn |
| `TranscriptAdds.ConnectionPuts` | crates/ai_chat_view/src/agent_transcript/acp.rs:8-23 | A connection status shows on its row, every other message staying, or on a new row without a turn |
| `TranscriptAdds.ErrorPuts` | crates/ai_chat_view/src/agent_transcript/acp.rs:25-37 | A connection error ends the status row and shows instead of the connection's row, or on a new row of the system's role; no row is active after that |
| `TranscriptAdds.FailurePuts` | crates/ai_chat_view/src/agent_transcript/acp.rs:39-48 | A connection that failed, unless its turn had ended, lets go of the segment and shows the error in the same way |
| `TranscriptAdds.ChangesReach` | crates/ai_chat_view/src/agent_transcript.rs:412-454 | Final texts, observations, answers, ends of calls and the news of subagents leave what their own laws say, in the event's turn, but for what has to go; those of a call, question or subagent that is not known change no message |
| `TranscriptAdds.TurnEventsClear` | crates/ai_chat_view/src/agent_transcript.rs:456-609 | After a turn's start or end nothing is being written and no status row is active; a start leaves all messages to the budget check, a completion those without the status row and with the segment closed |
| `TranscriptAdds.StatusRowsGo` | crates/ai_chat_view/src/agent_transcript.rs:724-730 | Ending the status row, or the connection's row, removes exactly that message |
| `TranscriptAdds.InputStaysIff` | crates/ai_chat_view/src/agent_transcript.rs:1223-1247 | A cached input stays through a budget check if and only if no card of its call has to go |
| `TranscriptAdds.StartCaches` | crates/ai_chat_view/src/agent_transcript.rs:759-787 | A started call's input is cached if and only if it is not oversized and no card of the call has to go with its start |
| `ToolGroups.Add` | crates/ai_chat_view/src/message_tool_group.rs:64-90 | One more call counts one under its own heading and nowhere else |
| `ToolGroups.RenderItems` | crates/ai_chat_view/src/message_tool_group.rs:209-232 | The loop computes the items of the specification |
| `ToolGroups.ItemsFlatten` | crates/ai_chat_view/src/message_tool_group.rs:209-232 | Flattening the items gives the messages back |
| `ToolGroups.RunsAreMaximal` | crates/ai_chat_view/src/message_tool_group.rs:209-232 | A group holds tool cards only, a single message is none, and no two groups touch |
| `ToolGroups.HeadTellsMembers` | crates/ai_chat_view/src/message_tool_group.rs:104-129 | The counts under every heading are the numbers of members under it, the line totals are the sums over all their files, and the group runs exactly when a member does |
| `ToolGroups.ElementsAreStable` | crates/ai_chat_view/src/message_tool_group.rs:185-232 | For any extension of the list the element ids of the shorter list come first |
| `ToolGroups.ItemsAreStable` | crates/ai_chat_view/src/message_tool_group.rs:209-232 | All items but the last stay the same as a whole when the list grows |
| `ToolGroups.ToggleTable.Flip` | crates/ai_chat_view/src/message_tool_group.rs:357-371 | The choice opposite to what is shown becomes the newest, the older one of the group goes, the oldest give way |
| `ToolGroups.ToggleTable.Expanded` | crates/ai_chat_view/src/message_tool_group.rs:345-351 | A manual choice decides, otherwise whether the group is running |
| `ToolGroups.TableIsRecent` | crates/ai_chat_view/src/message_tool_group.rs:357-371 | After any run of choices the table is the newest part of the unbounded one, one entry a group |
| `ToolGroups.ShownIsLatestChoice` | crates/ai_chat_view/src/message_tool_group.rs:331-371 | A group shows its latest choice if it is among the 512 groups chosen last, otherwise whether it is running |
| `ToolGroups.FlipShowsOpposite` | crates/ai_chat_view/src/message_tool_group.rs:345-371 | Flipping what is shown shows the opposite, running or not |
| `ChangelogHeadings.TransformHeadings` | script/changelog.py:77-112 | The loop over fence character, fence length and lines computes the transform of the automaton |
| `ChangelogHeadings.MaskFencedBlocks` | script/changelog.py:115-148 | The masking loop computes the mask of the same automaton |
| `ChangelogHeadings.FencesSurvive` | script/changelog.py:77-112 | Shifting headings keeps the number of lines and the fence state |
| `ChangelogHeadings.LinesOfShifted` | script/changelog.py:77-112 | The shifted lines are the lines of the shifted text, whatever ends them |
| `ChangelogHeadings.ShiftsAreInverse` | script/changelog.py:77-112 | Shifting out and home again gives the text back if and only if no heading outside fences sits on the level the way out leaves alone: level 6 out of notes, level 2 out of an entry |
| `ChangelogHeadings.SixthLevelIsLost` | script/changelog.py:101-108 | A concrete level 6 heading does not come back |
| `ChangelogHeadings.MaskKeepsOffsets` | script/changelog.py:115-148 | The mask has the text's length; a character of a fenced line becomes a space unless it is a carriage return or newline, every other character stays |
| `ChangelogHeadings.FenceOpenIff` | script/changelog.py:84-98 | Behind some lines a fence is open if and only if one of them, outside of every other fence, starts with three or more of its marks after white space and no line after that one has as many of them |
| `ChangelogHeadings.RowsTell` | script/changelog.py:77-148 | Exactly the lines that open or close a fence or stand in one are left alone by a shift and blanked by the mask |
| `ChangelogHeadings.ShiftLineIff` | script/changelog.py:99-108 | Out, exactly headings of level 2 to 5 get one hash more; home, exactly those of level 3 to 6 lose one; a heading is its hashes and a space or tab |
| `PyText.LineEndsAtBreak` | script/changelog.py:84 | A line ends at its first break, a carriage return with the newline behind it being one |
| `ChangelogVersions.ReadSpelt` | script/changelog.py:22-25 | The heading an upsert writes matches the heading pattern with its own tag and date |
| `ChangelogVersions.ReadsIff` | script/changelog.py:22-25 | A row reads as a version heading with that tag and date if and only if it is spelt as one, with nothing but spaces and tabs at its end |
| `ChangelogVersions.VersionsIff` | script/changelog.py:151-152 | The matches are the whole rows that read as a version heading, all of them and no others |
| `ChangelogVersions.IsTagIff` | script/changelog.py:17 | A tag is a v, three numerals with dots between them, and perhaps a dot or hyphen followed by letters, digits, dots and hyphens |
| `ChangelogVersions.VersionsInOrder` | script/changelog.py:22-25 | Matches lie in order and apart within the text |
| `ChangelogVersions.MatchIsOutside` | script/changelog.py:151-161 | A version heading starts a line and is outside every fence |
| `ChangelogVersions.EntriesConcat` | script/changelog.py:164-179 | Entries are read piece by piece wherever a version heading opens outside fences |
| `ChangelogBlanks.StrippedReads` | script/changelog.py:151-179 | Stripping the white space at the end of a text changes no entry and no place of a heading, unless a character of it other than newline, space and tab stands right behind a heading |
| `ChangelogBlanks.BlankBelow` | script/changelog.py:151-179 | White space behind a line end belongs to no entry |
| `Changelog.Extract` | script/changelog.py:164-179 | The loop over the matches computes the extraction, all refusals included |
| `Changelog.Upsert` | script/changelog.py:198-237 | The checks and the loop over the matches compute the upsert, all refusals in their order |
| `Changelog.NormalizeTagIff` | script/changelog.py:32-40 | A tag is taken without the white space around it, with or without its v; nothing else is |
| `Changelog.NotesAreGood` | script/changelog.py:53-74 | Notes pass exactly when they are not blank, have a section in each language and, where asked for, the mirror line; blank notes and a missing mirror line are told as such |
| `Changelog.UpsertSucceedsIff` | script/changelog.py:199-218 | An upsert succeeds if and only if the tag is one, the date is in the calendar, the notes pass with their mirror line, the marker stands there once, and every version has its own tag and a date |
| `Changelog.NoVersion` | script/changelog.py:151-161 | A text without second level headings outside fences holds no version |
| `Changelog.BodyIsShifted` | script/changelog.py:204-217 | The body an upsert writes is the shifted stripped notes, with nothing left to strip |
| `ChangelogMarker.CountWritten` | script/changelog.py:204-237 | A written changelog holds the markers of the text above, of the body and of the text below, and no others |
| `ChangelogMarker.CountTransform` | script/changelog.py:77-112 | Shifting headings makes and breaks no marker |
| `ChangelogMarker.CountIsPlaces` | script/changelog.py:208-215 | The markers counted are the places where the marker stands |
| `ChangelogMarker.EndOfFirstIsFirst` | script/changelog.py:231 | The end found is that of the first one |
| `ChangelogRoundTrip.UpsertPutsOneEntry` | script/changelog.py:198-237 | An upsert puts one entry in its place: that of its tag goes, every other entry keeps tag, date, body and order |
| `ChangelogRoundTrip.UpsertKeepsText` | script/changelog.py:217-237 | Every upsert that succeeds cuts the changelog around the entry of its tag or behind the marker, and writes the text above without white space at its end, the heading, the shifted notes and the text below, each behind an empty row; no other character goes or comes |
| `ChangelogRoundTrip.ExtractAfterUpsert` | script/changelog.py:164-237 | Extracting the tag just upserted gives the stripped notes and a newline if and only if the notes hold no level 6 heading outside fences |
| `ChangelogRoundTrip.OthersExtractUnchanged` | script/changelog.py:164-237 | Whatever another tag extracted to before, notes or an error, it extracts to after |
| `ChangelogSecondUpsert.SecondUpsertIsNoOp` | script/changelog.py:198-237 | A second identical upsert is refused exactly when the marker stands in the replaced entry but not in the notes, or more often in the notes than there; otherwise it changes nothing, unless white space other than newlines stood between the marker and the next heading, which it takes out for good |
| `ChangelogSecondUpsert.MarkerCanGetLost` | script/changelog.py:198-237 | Replacing the only entry, when the marker stands in it, makes the second call fail for the missing marker |
| `ChangelogSecondUpsert.MarkerCanDouble` | script/changelog.py:198-237 | Notes that hold the marker make the second call fail for the repeated marker |
| `ChangelogRoundTrip.LatestUpsertWins` | script/changelog.py:164-237 | Over a whole run of upserts the latest one of a tag is what its extract gives back, under the same condition |
| `ChangelogRoundTrip.RunKeepsOthers` | script/changelog.py:164-237 | A tag no upsert of the run names extracts as before |
| `ChangelogSecondUpsert.StrippingCanMakeAHeading` | script/changelog.py:164-237 | A changelog with a row that a vertical tab keeps from being a heading: its tag has no entry before the upsert of the tag below it, and an empty entry after that |

## Left out

- TranscriptStream.NothingSaidIsLost: stated for runs that drop no message, and with a condition on each step where the code takes text away by design: a delta that no longer fits its segment, a chart in a segment that is closed, a final text that differs from what was streamed.
- ChangelogRoundTrip.UpsertPutsOneEntry: holds at the places `PlacedAt` describes; other text between the marker and the next heading would become part of the new entry.
- The text of a patch: path headers, `/dev/null`, `untitled`, decimal numbers and the parser that reads a patch back; hunks are structured values.
- UnifiedPatch.WeaveRows: the current hunk is a value that the loop replaces, not a mutable buffer.
- ToolGroups.CollectGroup: a group is a value that is pushed to, not a mutable object; the header's wording and order are not modelled.
- TranscriptAdds.UserMessageAdds: what is left of a text without its inline images is a parameter; images and the parsing of their data URLs are not modelled.
- `load_history` and the replay of a stored session, including images and subagents rebuilt from delegation calls.
- Tool cards whose stored JSON does not parse, the revision counter, and internationalised texts.
- History items' texts beyond what compaction and declarations look at; the truncation of observations.
- Requests to a model, log output, and the scheduling of asynchronous steps; a stream is its finite sequence of items.
- Reading ELF files and RPM packages, staging, licences, checksums and the manifest of the GPU stack.
- The command line of the changelog script, file access and the atomic write; the regular expressions for the two-language sections and the mirror line.
- CommonMark conformance of fences: the code's rule is modelled, which is looser than section 4.5 of the CommonMark specification.
- Rendering, themes, key bindings, the clipboard and all other parts of the user interface.
