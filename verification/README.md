# Verified models of the agent toolkit

Dafny models of the stateful core of the agent toolkit, with proofs of what that core is for. Each model follows the
control flow of the code it models; code that updates fields or runs in loops is modelled by classes and loops that are
proved against functions on values, and the main theorems are about those functions and about whole runs.

- `Terminal`, `FrameDiff`, `Renderer`: the differential terminal renderer over a small terminal with scrollback, top row,
  cursor and pen (CUU and CUD clamp at the screen edge, sections 8.3.22 and 8.3.19 of ECMA-48; EL and ED as in sections
  8.3.41 and 8.3.39). Every operation keeps `TUI.Coherent`, the bookkeeping; `TUI.Valid` also ties what the renderer
  remembers to the terminal's real state.
- `TaskModel`, `TaskTransitions`, `TaskInvariants`, `TaskRuns`, `TaskProgress`, `TaskSupervisor`: the scheduler of
  `TaskSupervisor` as a state machine (`TaskModel.Step`), what each step records, its invariants, safety and recovery
  over all runs, termination, and the class whose methods are the steps.
- `AgentEvents`, `ToolBatches`, `AgentLoop`, `AgentRuns`, `Harness`: the agent loop and the agent around it. `AgentEvents.CanRead`
  says which event may follow which; every emission is proved readable, so every trace the loop emits is well formed.
  Hooks, tools, the model and the user are an arbitrary script; the completion of concurrent tools is an arbitrary
  interleaving. The harness consumes any well-formed trace and defers session writes while a run is active.
- `Messages`, `MessageProofs`, `CallNames`, `Completions`, `RequestContent`: the transformation of a history for a
  provider, which call a result names after it, the request built from it, and what of the history it says.
- `Text`, `StdinSplitter`, `StdinBuffer`, `TokenEnds`: the tokenizer of terminal input, the buffer around it, and where
  each kind of token ends.
- `AnsiStyles`, `AnsiProofs`, `AnsiCodes`, `AnsiTracker`: styles as text, the table of codes, and the tracker that carries them over line breaks.
- `Columns`, `Slices`, `Overlay`, `OverlayFrames`: lines of graphemes and escape codes, slices of them, overlay layout and
  the splicing of an overlay into a line, and the frames that the renderer makes of the result.
- `JsonRepair`: the repair of JSON string literals.

What the proofs found about the code:

- The cursor marker scan can reach above the top of the screen after the content has shrunk; from then on the remembered
  cursor row differs from the real one (`Renderer.MarkerAboveScreen`), and the next partial frame can be misplaced
  (`Renderer.MispaintedFrame`). `TUI.DoRender` states exactly when the rows differ, and that a partial frame whose
  first changed line looks different is right from such a state exactly if the first row to repaint is the bottom row of
  the screen; the state is then as after any other painted frame.
- A tool call id that starts with a pipe is normalized to the empty id; its result keeps the old id
  (`Completions.PipeIdPartsResult`). Two ids with the same text before the pipe, or for openai with the same first 40
  characters, go out as one; a result of the first then answers the second as well
  (`Completions.CollidingIdsShareAResult`). `CallNames.ResultNamesOnlyItsCall`, `Completions.SentTogetherIffCollide` and
  `Completions.SeparableIffNoneCollide` state exactly when a result names its call and no other.
- An unfinished escape sequence before a paste marker is dropped, whether it came in the same chunk or was kept back from
  an earlier one (`StdinBuffer.EscBeforePasteIsLost`); `StdinBuffer.NothingLostBeforePaste` states exactly when nothing is
  lost. If the start marker itself is cut, the unfinished sequence can swallow the marker instead
  (`StdinBuffer.CutMarkerIsSwallowed`). `StdinBuffer.ChunksDoNotMatter` states exactly when chunks make no difference.
- A session write that is deferred during compaction, tree navigation or a run that fails to start stays waiting when the
  harness is idle again, so a later direct write overtakes it (`Harness.OvertakenAfterCompaction`).
  `AgentHarness.RecordWrite` states exactly when the order holds.
- A wide character under the right edge of an overlay moves the rest of the line to the left, because the padding goes to
  the end of the line (`Overlay.StraddlingShifts`). `Overlay.RightPartStands` states exactly when.
- In a slice of a line that does not start at its first column, codes right at the first column come before the codes of
  the skipped part, so they can be undone (`Slices.SliceOutOfStep`; the tree selector slices its rows like this when it is
  scrolled, packages/coding-agent/src/modes/interactive/components/tree-selector.ts:85-90). `Slices.StylesKept`, which
  `Slices.SliceWithWidth` ensures, states exactly when.
- `\u` without four hexadecimal digits is left as it is by the JSON repairer, so the literal stays malformed
  (`JsonRepair.BadUnicodeStaysMalformed`). `JsonRepair.RepairedMeansLenient` states exactly when.

## Model

| member | source | states |
|---|---|---|
| Renderer.TUI.DoRender | packages/tui/src/tui.ts:1253-1619 | From any state of the bookkeeping, right or not. If the memory is right, or the screen is cleared, a frame whose lines fit the width is painted exactly: the rows, scrollback included, show the rendered lines and are blank elsewhere, whatever was shown before and whichever path is taken (append, edit, shrink, delete only, clear on shrink, forced); the remembered viewport top and size are the real ones; the remembered cursor row is the real one exactly if the marker is not above the screen. From a cursor below its remembered row a partial frame whose first changed line looks different comes out right exactly if the first row to repaint is the bottom row of the screen, and the state is then as after any other painted frame. A full redraw happens exactly in the listed cases. A line that is too wide stops the UI and leaves the old rows, unless the frame is printed from scratch, where the width is not checked. After every frame that is rendered, the unchanged one included, the hardware cursor stands in the column behind the cells before the lowest marker, and in its row unless that is above the screen |
| Renderer.Session | packages/tui/src/tui.ts:1283-1324 | Refinement over a whole session: after every frame the terminal agrees on every row with a terminal on which that frame alone was printed; it ends early only after a frame whose marker is above the screen, if no full redraw is forced next |
| Renderer.PrintedAlone | packages/tui/src/tui.ts:1334-1339 | A terminal on which only this frame was printed shows it |
| Renderer.ShowingTheSameAgrees | packages/tui/src/tui.ts:1283-1324 | Two terminals that show the same lines agree on every row; rows that only one of them has are blank |
| Renderer.MarkerAboveScreen | packages/tui/src/tui.ts:1233-1251 | Concrete run in which the marker scan reaches above the screen: the remembered cursor row is 1, the real one 2 |
| Renderer.MispaintedFrame | packages/tui/src/tui.ts:1462-1585 | Concrete continuation of that run: the next frame of four lines leaves a blank row inside the content and its last line one row too low; forcing a full redraw shows it as it should be |
| Renderer.TUI.RenderChanges | packages/tui/src/tui.ts:1366-1619 | The frame is painted from its changed rows, with a full redraw exactly if a row above the screen would have to change; from a cursor below its remembered row it is right exactly under the stated condition, and the state is then as after any other painted frame |
| Renderer.TUI.Repaint | packages/tui/src/tui.ts:1462-1619 | Repainting the changed rows leaves the new lines, blank rows behind them, and the top row and cursor row as remembered, if the first cursor move reaches its row; otherwise the first changed row keeps its old content, and appended lines land as far too low as the cursor was off, at most right below the screen. The pre-scroll branch cannot be reached at a fixed size; a line that is too wide leaves the old rows |
| Renderer.TUI.DeleteLines | packages/tui/src/tui.ts:1403-1450 | Dropping lines from the end blanks exactly their rows without scrolling if the first of them is the first row blanked; otherwise that row stays |
| Renderer.TUI.FullRender | packages/tui/src/tui.ts:1283-1324 | A full redraw, cleared or on a blank screen, shows exactly the new lines, whatever was remembered |
| Renderer.TUI.PositionHardwareCursor | packages/tui/src/tui.ts:1626-1657 | The relative move ends as far from the cursor as the marker row is from the remembered row, stopped by the edges of the screen |
| Renderer.TUI.ForceRedraw | packages/tui/src/tui.ts:711-733 | Forgetting the last frame makes any state right again, as the next frame is a full redraw |
| Renderer.TUI.Resize | packages/tui/src/tui.ts:1255-1260 | A size change, before the first frame too, whatever it does to the rows, leaves a right state unless it ends at the size of the last frame |
| Renderer.TUI.Stop | packages/tui/src/tui.ts:695-705 | Stopping moves below the content without overwriting any of it |
| FrameDiff.ChangedRange | packages/tui/src/tui.ts:1366-1387 | The first and last changed rows: no row outside the range differs, the bounds differ, and -1 means the frames are equal |
| FrameDiff.ExtractCursorPosition | packages/tui/src/tui.ts:1233-1251 | Finds the lowest marker within one screen height from the end and removes that marker only |
| FrameDiff.ApplyLineResets | packages/tui/src/tui.ts:1094-1103 | Every line ends in a reset |
| FrameDiff.FrameShowsLines | packages/tui/src/tui.ts:1094-1103 | Rows show a frame, marker stripped and lines closed, exactly if they show the rendered lines |
| FrameDiff.CursorIsMarker | packages/tui/src/tui.ts:1233-1251 | The cursor position is the row of the lowest marker within one screen height from the end and the number of cells before its first marker |
| FrameDiff.FullFrame | packages/tui/src/tui.ts:1283-1308 | The buffer of a full redraw prints each line on its own row |
| FrameDiff.RepaintChangedRows | packages/tui/src/tui.ts:1479-1585 | From any cursor row the buffer writes the changed lines, and blanks for the dropped ones, from the row that its first move reaches; if that is the first changed row, none of its relative moves is clamped at a screen edge |
| FrameDiff.RepaintOutcome | packages/tui/src/tui.ts:1462-1585 | What such a buffer makes of the remembered rows: exactly the new lines if the first move reaches its row, wrong rows otherwise |
| FrameDiff.DeletionOutcome | packages/tui/src/tui.ts:1403-1450 | The same for dropped lines |
| FrameDiff.ClearDeletedRows | packages/tui/src/tui.ts:1415-1440 | From any cursor row the buffer blanks as many rows as were dropped, from the row that its first moves reach down to the bottom of the screen at most; reached rightly, none of its relative moves is clamped |
| FrameDiff.OnlyDeletions | packages/tui/src/tui.ts:1403-1405 | A first change beyond the new lines means that lines were only dropped from the end |
| FrameDiff.FrameFits | packages/tui/src/tui.ts:1094-1103 | Stripping the marker and adding resets changes no width |
| Terminal.PrintOnBlankRow | packages/tui/src/tui.ts:1305-1306 | A line that fits, printed at the left edge of a blank row, shows exactly its cells and does not wrap |
| TaskInvariants.StepKeepsValid | packages/orchestrator/src/task-supervisor.ts:103-344 | Every step keeps: creation order is a topological order of dependencies and parents; at most maxConcurrent tasks run; the running map is exactly the tasks with status running; a task that ever started has all dependencies completed; attempts stay within maxAttempts plus recoveries, one less while queued or waiting; no finished task has a waiter; the saved file equals the records; while a task is unfinished a pump is queued or something runs; without a queued pump a startable task only waits for a slot |
| TaskTransitions.EndIsRecorded | packages/orchestrator/src/task-supervisor.ts:285-321 | What the end of an execution records: a return completes the task with its summary; a throw requeues it without error during a shutdown, cancels it with the message if it was aborted without a timeout, requeues it with the message while attempts are left, and otherwise makes it timed out or failed; no other record changes |
| TaskTransitions.CancelIsRecorded | packages/orchestrator/src/task-supervisor.ts:167-178 | Cancelling records a task that has not started, asks a running one to stop, and leaves a finished one alone |
| TaskTransitions.RetryIsRecorded | packages/orchestrator/src/task-supervisor.ts:180-190 | Exactly a finished task that was not completed is queued again, without its error and with room for another attempt |
| TaskTransitions.SpawnIsRecorded | packages/orchestrator/src/task-supervisor.ts:123-156 | A new record is queued with its links and no attempts, its parent lists it, and nothing else changes |
| TaskTransitions.AbortIsRecorded | packages/orchestrator/src/task-supervisor.ts:219-224 | A shutdown and a timeout ask running tasks to stop, for the first reason given, and change no record |
| TaskTransitions.RecoveryIsRecorded | packages/orchestrator/src/task-supervisor.ts:110-121 | Recovery queues the records left running and changes no other |
| TaskTransitions.PassIsRecorded | packages/orchestrator/src/task-supervisor.ts:235-275 | What a pass records of each task: failed for the first dependency that can no longer complete, waiting, started with one more attempt, or left alone |
| TaskTransitions.PassIsInOrder | packages/orchestrator/src/task-supervisor.ts:235-258 | Of two tasks that can start, the one created earlier starts if the other does |
| TaskTransitions.CompletedIffReturned | packages/orchestrator/src/task-supervisor.ts:262-314 | Over any run a task is completed exactly if it was before or some execution of it returned, and its result is the summary that was returned |
| TaskRuns.RunKeepsValid | packages/orchestrator/src/task-supervisor.ts:103-344 | All of that holds in every reachable state |
| TaskRuns.InitialIsValid | packages/orchestrator/src/task-supervisor.ts:103-108 | An empty supervisor satisfies it |
| TaskInvariants.PumpOverSettles | packages/orchestrator/src/task-supervisor.ts:235-258 | One pass leaves either no free slot or no startable task; if nothing runs after it, every task is finished |
| TaskInvariants.VisitSettles | packages/orchestrator/src/task-supervisor.ts:239-256 | A visited record is left unable to start; if its dependencies are finished and nothing runs, it is left finished |
| TaskRuns.RunEvolves | packages/orchestrator/src/task-supervisor.ts:123-344 | Over any run, crashes included: records, links and creation order only grow; attempts only grow; a completed record is never left or changed but for new children |
| TaskRuns.StartedStaysJustified | packages/orchestrator/src/task-supervisor.ts:235-275 | A task that ever started has every dependency completed, now and in all later states |
| TaskRuns.FinishedStaysFinished | packages/orchestrator/src/task-supervisor.ts:180-190 | Only an explicit retry reopens a finished task |
| TaskRuns.CrashRecoveryConserves | packages/orchestrator/src/task-supervisor.ts:107-121 | Killing the process after any step, reloading and recovering keeps ids, links and attempts; finished and waiting records are unchanged, running ones are queued, nothing runs, and a pump is queued |
| TaskRuns.SettledShutdownIsInLine | packages/orchestrator/src/task-supervisor.ts:219-224 | Once a shutdown has settled every unfinished task is queued or waiting |
| TaskRuns.StepResolves | packages/orchestrator/src/task-supervisor.ts:192-212 | A waiter that was told stays told with the same record; one that stops waiting was told the finished record of its own task, or its own timeout fired; no other step removes a waiter |
| TaskRuns.RunResolves | packages/orchestrator/src/task-supervisor.ts:192-212 | Over any run without a crash: a waiter once told keeps that record; a waiting one is removed exactly if its own timeout fires, and otherwise still waits or was told a finished record that its own task had at some moment of the run |
| TaskProgress.OwnRunsEnd | packages/orchestrator/src/task-supervisor.ts:226-267 | Between external commands every run of pumps and ends of executions is bounded, and where it can go no further every task is finished: no deadlock |
| TaskProgress.WorkCanFinish | packages/orchestrator/src/task-supervisor.ts:226-267 | From every working state some run of the scheduler's own steps finishes every task |
| TaskProgress.PumpTaskUsesWork | packages/orchestrator/src/task-supervisor.ts:260-275 | Each start uses up one of the remaining executions; no visit adds any |
| TaskProgress.SettleUsesWork | packages/orchestrator/src/task-supervisor.ts:285-314 | The end of an execution adds no remaining executions, a failure below the limit included |
| TaskSupervisor.Supervisor.constructor | packages/orchestrator/src/task-supervisor.ts:103-108 | Loads the saved records in order, with nothing running |
| TaskSupervisor.Supervisor.RecoverAfterRestart | packages/orchestrator/src/task-supervisor.ts:110-121 | The step Recover, in place |
| TaskSupervisor.Supervisor.SpawnTask | packages/orchestrator/src/task-supervisor.ts:123-156 | The step Spawn, in place; rejected exactly for an unknown parent or dependency |
| TaskSupervisor.Supervisor.CancelTask | packages/orchestrator/src/task-supervisor.ts:167-178 | The step Cancel, in place |
| TaskSupervisor.Supervisor.RetryTask | packages/orchestrator/src/task-supervisor.ts:180-190 | The step Retry, in place |
| TaskSupervisor.Supervisor.WaitForTask | packages/orchestrator/src/task-supervisor.ts:192-212 | The step Wait, in place |
| TaskSupervisor.Supervisor.WaiterTimesOut | packages/orchestrator/src/task-supervisor.ts:205-210 | The timeout removes its own waiter only |
| TaskSupervisor.Supervisor.ShutDown | packages/orchestrator/src/task-supervisor.ts:219-224 | The step Shutdown, in place: every running task is aborted, keeping an earlier reason |
| TaskSupervisor.Supervisor.Timeout | packages/orchestrator/src/task-supervisor.ts:277-280 | The timeout of a running task aborts it, keeping an earlier reason |
| TaskSupervisor.Supervisor.RunPump | packages/orchestrator/src/task-supervisor.ts:235-258 | The loop over the records is the pass of the model, in place |
| TaskSupervisor.Supervisor.ExecutionEnds | packages/orchestrator/src/task-supervisor.ts:262-314 | The final transition, the notification and the cleanup are the step Settle, in place |
| Completions.RequestIsWellFormed | packages/ai/src/api/openai-completions.ts:892-1155 | For every history each assistant parameter with tool calls is directly followed by a block of tool messages that answers every one of its ids; and where the provider asks for it no tool message is directly followed by a user message |
| MessageProofs.SecondPassCloses | packages/ai/src/api/transform-messages.ts:158-222 | After the second pass every call is answered by the results that directly follow its message |
| MessageProofs.SecondPassKeeps | packages/ai/src/api/transform-messages.ts:182-222 | Without the stand-ins the output is the transformed history without errored and aborted assistants, in order |
| MessageProofs.SecondPassEmits | packages/ai/src/api/transform-messages.ts:158-222 | Nothing is emitted but messages of the history that did not fail and stand-ins for calls of the history: errors under the id and name of the call that say that no result was provided |
| MessageProofs.TransformTwice | packages/ai/src/api/transform-messages.ts:64-222 | The transformation is idempotent whenever the id normalizer is |
| MessageProofs.ResultNamesItsCall | packages/ai/src/api/transform-messages.ts:83-90 | If no other message before a result calls with its id, the renamed result has the new id of its own call exactly if that id is not empty or the old one is |
| CallNames.ResultNamesOnlyItsCall | packages/ai/src/api/transform-messages.ts:83-145 | If no id is called twice, a renamed result names its call and no other exactly if the new id is not empty (or the old one is) and no other call of the history goes out under it |
| CallNames.EachCallGetsItsOwn | packages/ai/src/api/transform-messages.ts:158-222 | If moreover all ids stay apart, every call that goes out is directly followed, among results only, by an answer of its own: one of its own results or a stand-in for it |
| MessageProofs.CalledIsKnown | packages/ai/src/api/transform-messages.ts:127-145 | At a result the id map knows exactly the renaming of its call |
| Messages.ReplaceImagesWithPlaceholder | packages/ai/src/api/transform-messages.ts:15-33 | The loop replaces each run of images by one placeholder and keeps everything else |
| Messages.TransformAssistant | packages/ai/src/api/transform-messages.ts:92-154 | The loop over blocks transforms them and records the renamed ids |
| Messages.InsertSyntheticToolResults | packages/ai/src/api/transform-messages.ts:163-180 | The loop adds a stand-in for each pending call without a result |
| Messages.TransformMessages | packages/ai/src/api/transform-messages.ts:64-222 | Both loops together are the two passes |
| Completions.NormalizerIsIdempotent | packages/ai/src/api/openai-completions.ts:899-912 | Normalizing a normalized id changes nothing |
| Completions.NormalizerIsEmptyWhen | packages/ai/src/api/openai-completions.ts:899-912 | The normalizer yields the empty id exactly for the empty id and for ids that start with a pipe |
| Completions.PipeIdPartsResult | packages/ai/src/api/transform-messages.ts:84-89 | Concrete history in which such an id parts a result from its call: the call goes out under the empty id, the result under the old one |
| Completions.SentTogetherIffCollide | packages/ai/src/api/openai-completions.ts:899-914 | Two ids go out as one exactly if they collide: the same text before the pipe up to disallowed characters and the first 40 characters, or the same first 40 characters for openai, or one is what the other is cut or cleaned to |
| Completions.SeparableIffNoneCollide | packages/ai/src/api/openai-completions.ts:899-914 | The ids of a history with distinct ids, whose results answer calls, stay apart exactly if no two of them collide and none that is renamed starts with a pipe |
| Completions.CollidingIdsShareAResult | packages/ai/src/api/openai-completions.ts:899-914 | Concrete history with two calls whose ids differ behind the pipe only, and a result of the first: both go out under one id, the result names both, and the second gets no stand-in |
| Completions.ConvertAnswers | packages/ai/src/api/openai-completions.ts:922-1155 | Converting a closed history leaves every call answered |
| Completions.ConvertSeparates | packages/ai/src/api/openai-completions.ts:926-933 | The bridging message stands between tool results and a user message, images of results included |
| Completions.ConvertResults | packages/ai/src/api/openai-completions.ts:1070-1115 | The inner loop over a run of tool results collects exactly that run, its images and its added tool names |
| Completions.BuildRequest | packages/ai/src/api/openai-completions.ts:892-1155 | The loop with its jumping index and lastRole computes the conversion, whose well-formedness is Completions.RequestIsWellFormed and whose content is RequestContent.RequestSaysHistory |
| RequestContent.RequestSaysHistory | packages/ai/src/api/openai-completions.ts:892-1155 | A request says exactly what the transformed history says, in its order, bridging sentences aside: the texts and images of users, the words, thinking and calls (id, name, arguments) of assistants, and for each result its id and its text blocks joined by newlines, with a placeholder exactly if there is no text; the images and added tools of a run of results follow it |
| RequestContent.ConvertSays | packages/ai/src/api/openai-completions.ts:922-1155 | The same for the conversion of any history, transformed or not |
| RequestContent.ResultSays | packages/ai/src/api/openai-completions.ts:1073-1091 | One tool message carries the id and the text of its result |
| RequestContent.OwnBlocksStay | packages/ai/src/api/transform-messages.ts:99-152 | A model gets the blocks of its own messages back, without blank thinking that is neither signed nor redacted |
| RequestContent.OthersBlocksStay | packages/ai/src/api/transform-messages.ts:99-152 | Of another model's message all texts stay, thinking that is neither blank nor redacted becomes text, calls keep name and arguments under the normalized id, images stay, and no signature is left |
| RequestContent.OnlyImagesAreReplaced | packages/ai/src/api/transform-messages.ts:15-33 | Nothing but images goes, nothing but placeholders comes, and images leave a placeholder behind |
| StdinSplitter.ExtractIsLossless | packages/tui/src/stdin-buffer.ts:192-255 | The sequences and then the remainder are the buffer; no sequence is empty; the remainder is one unfinished escape sequence or empty |
| StdinSplitter.ExtractsTokens | packages/tui/src/stdin-buffer.ts:192-255 | Every sequence is one character, or an escape sequence that is complete and was not complete before its last character |
| TokenEnds.ExtractTokenizes | packages/tui/src/stdin-buffer.ts:27-255 | Sequences and a remainder are what the tokenizer yields exactly if each sequence is one character or ends where its kind ends: after three characters for ESC O, after six for ESC [ M, at the first BEL or ESC \ for ESC ], at the first ESC \ for ESC P and ESC _, at the first full mouse report for ESC [ <, at the first final byte for other control sequences, and after two for any other pair; and the remainder is empty or has not reached its end |
| TokenEnds.KittyPrintableMeans | packages/tui/src/stdin-buffer.ts:184-190 | A report yields a code point exactly if it reads ESC [ code, at most two further fields, u, with a code from 32 on and without modifiers |
| StdinSplitter.CsiTokenEndsAtFinalByte | packages/tui/src/stdin-buffer.ts:83-120 | A control sequence ends at its first byte from 0x40 to 0x7E (section 5.4 of ECMA-48) |
| StdinSplitter.CutAnywhere | packages/tui/src/stdin-buffer.ts:192-255 | Cutting the input anywhere gives the same sequences and remainder, unless the cut parts an ESC ESC token from a character that opens a sequence; then the sequences before it agree, and a lone ESC stands in its place |
| StdinBuffer.ChunksDoNotMatter | packages/tui/src/stdin-buffer.ts:287-387 | Without flushes, from every state, input in chunks gives the same events and state as the whole input at once, pastes included, exactly if every cut is harmless |
| StdinBuffer.TwoChunks | packages/tui/src/stdin-buffer.ts:287-387 | From every state and for every input: two chunks give the same events and state as their concatenation exactly if the cut is harmless, that is, if it parts no ESC ESC token from a character that opens a sequence and, where it falls into a start marker, what is unfinished before the marker is nothing or stays unfinished; otherwise the first chunk alone already delivers something else |
| StdinBuffer.CutInMarkerIsHarmless | packages/tui/src/stdin-buffer.ts:313-345 | With nothing unfinished before it a start marker may be cut anywhere: the effect is that of the whole input |
| StdinBuffer.CutMarkerIsSwallowed | packages/tui/src/stdin-buffer.ts:313-345 | Concrete cut that is not harmless: an unfinished control sequence swallows the first half of the marker, and the content arrives as keys |
| StdinBuffer.TextThenPaste | packages/tui/src/stdin-buffer.ts:313-372 | Text with nothing unfinished at its end, and then a paste, in any chunks: the sequences of the text and exactly one paste |
| StdinBuffer.PasteArrivesOnce | packages/tui/src/stdin-buffer.ts:313-372 | From an empty buffer START content END in any non-empty chunks is exactly one paste of the content, if the content has no end marker |
| StdinBuffer.UnfinishedBeforePasteIsLost | packages/tui/src/stdin-buffer.ts:334-345 | Before a paste in one chunk the complete sequences of the text are delivered and nothing else |
| StdinBuffer.NothingLostBeforePaste | packages/tui/src/stdin-buffer.ts:334-345 | For every state outside a paste and every chunk with a start marker: what is delivered before the paste is all that stands before the marker, kept back or new, exactly if the tokenizer leaves no remainder there |
| StdinBuffer.EscBeforePasteIsLost | packages/tui/src/stdin-buffer.ts:334-345 | Concrete loss: an Escape right before a paste, in the same chunk and kept back from an earlier one |
| StdinBuffer.ExtractCompleteSequences | packages/tui/src/stdin-buffer.ts:192-255 | The nested loops compute the tokenizer |
| StdinBuffer.Buffer.TakeChunk | packages/tui/src/stdin-buffer.ts:287-387 | process, in place, recursion after a paste included; outside a paste input is kept back only while a timer runs |
| StdinBuffer.Buffer.EmitDataSequence | packages/tui/src/stdin-buffer.ts:389-398 | A key already reported in its Kitty form is not delivered again as a plain character |
| StdinBuffer.ReportedKeyArrivesOnce | packages/tui/src/stdin-buffer.ts:389-398 | A Kitty report followed by its own character is one event; followed by anything else both are delivered, and a second time the character is delivered too |
| StdinBuffer.Buffer.Flush | packages/tui/src/stdin-buffer.ts:400-414 | Hands out what is kept back, once |
| StdinBuffer.Buffer.TimerFires | packages/tui/src/stdin-buffer.ts:377-386 | A remainder is delivered as one sequence when its timer runs out |
| StdinBuffer.Buffer.Clear | packages/tui/src/stdin-buffer.ts:416-425 | Back to the empty state |
| AgentEvents.FinishedTrace | packages/agent/src/agent-loop.ts:95-275 | A readable trace that ended has one agent_start, as many turn ends as turn starts and at least one, balanced messages, per call id as many ends of executions as starts, and agent_end last with exactly the messages that ended |
| AgentEvents.WellFormedIsBalanced | packages/agent/src/agent-loop.ts:155-275 | At every point of a readable trace starts and ends balance up to what is open |
| AgentEvents.StateFollowsTrace | packages/agent/src/agent.ts:527-565 | Reducing any readable trace leaves the old messages followed by those that ended, streams a message exactly while one is open, and has no pending tool call at a turn_end |
| AgentEvents.StateMeans | packages/agent/src/agent.ts:527-565 | After any trace the streamed message is the last version shown of the message that is open, a call is pending exactly if the last event of an execution with its id is a start, and the error is that of the last turn that had one |
| AgentEvents.ReaderCollectsMessages | packages/agent/src/agent-loop.ts:95-118 | The messages collected are those of the message_end events, in order |
| AgentRuns.ReaderCollectsTurns | packages/agent/src/agent-loop.ts:174-257 | The turns collected are the turn_end events, in order |
| AgentLoop.Agent.RunLoop | packages/agent/src/agent-loop.ts:155-275 | For every script of responses, outcomes, arrivals and decisions the emitted trace is readable; newMessages are exactly the messages that ended; what was queued, also in a failed or stopped turn, after the last poll and while agent_end is awaited, is in the transcript, about to be injected, or still queued, each once and in order; the messages and turn ends are those of the turns taken. A turn that fails or is stopped ends the run and no other does before the script is used up; a turn is followed by another exactly if its tool calls ask for it or a poll found something; at a quiet end its calls do not ask for it, both polls after it found nothing, and each queue holds only what came after its last poll. The context is that of the turns taken and of what hooks put in its place |
| AgentRuns.ToolCallsAreFollowedUp | packages/agent/src/agent-loop.ts:174-216 | In the trace of a run a turn_end whose message calls tools, some of which are answered and do not ask to terminate, is followed by turn_start, unless the turn is stopped; one that failed or was stopped is followed by agent_end; and turn_start follows only if the tool calls ask for it or messages were queued |
| AgentRuns.TurnsInTrace | packages/agent/src/agent-loop.ts:155-275 | Each turn_end carries the response and the results of its turn, in the order of the turns, and is followed by turn_start if another turn was taken, by agent_end and nothing else if the run ended, and by nothing otherwise |
| AgentRuns.BatchMeans | packages/agent/src/agent-loop.ts:196-214 | A failed response has no results; every call of a response cut off at the token limit gets an error and none is executed; otherwise the calls are executed in order up to the first after which the run is aborted |
| AgentLoop.CallsOnIff | packages/agent/src/agent-loop.ts:203-213 | The tool calls of a turn ask for another response exactly if the batch does not terminate: the turn did not fail and some call that is answered does not ask to terminate |
| AgentLoop.Agent.RunTurn | packages/agent/src/agent-loop.ts:174-257 | A turn adds exactly the pending messages, the response and its tool results to the transcript and the context, unless a hook replaces that; it ends with one turn_end that carries the response and the results, and goes on, stops or fails as the response, its calls and the hook say |
| AgentLoop.Agent.StreamAssistantResponse | packages/agent/src/agent-loop.ts:281-374 | Whatever the stream of updates, the context gains exactly the final message and the trace one paired message, with every version that is streamed in between |
| AgentLoop.Agent.FailToolCallsFromTruncatedMessage | packages/agent/src/agent-loop.ts:383-408 | Every call of a truncated message is answered by an error, in order, and none ends the run |
| AgentLoop.Agent.ExecuteToolCallsSequential | packages/agent/src/agent-loop.ts:435-489 | Returns the batch that depends on each call alone; every started call ends once and its announced outcome is the delivered result |
| AgentLoop.Agent.ExecuteToolCallsParallel | packages/agent/src/agent-loop.ts:491-556 | For every interleaving of progress and completion returns the same batch as sequential execution: results in source order, the same terminate flag, every started call ended once |
| ToolBatches.ExecutedInOrder | packages/agent/src/agent-loop.ts:435-586 | The results answer a prefix of the calls in source order, all of them if not aborted; terminate holds exactly if there are results and each asks for it |
| AgentLoop.PendingMessageQueue.Drain | packages/agent/src/agent.ts:139-152 | Takes everything, or the first message, from the front and keeps the rest |
| AgentLoop.Agent.GetSteeringMessages | packages/agent/src/agent.ts:458-464 | A poll takes from the front of the steering queue; a skipped poll takes nothing; an empty answer means an empty queue |
| AgentLoop.Agent.GetFollowUpMessages | packages/agent/src/agent.ts:465-465 | A poll takes from the front of the follow-up queue; an empty answer means an empty queue |
| AgentLoop.Agent.ArriveLate | packages/agent/src/agent.ts:274-281 | What is queued after the last event stays in its queue, in order |
| AgentLoop.Agent.ProcessEvents | packages/agent/src/agent.ts:527-565 | The reducer, in place, for every event that may come next |
| AgentLoop.Agent.RunAgentLoop | packages/agent/src/agent-loop.ts:95-143 | The transcript ends as the old one followed by newMessages, which are the prompts and then what the turns taken say; the rest is as for the loop |
| AgentLoop.Agent.FinishRun | packages/agent/src/agent.ts:512-518 | After its last event a run leaves the agent idle with every queued message accounted for |
| AgentLoop.Agent.Prompt | packages/agent/src/agent.ts:337-345 | Rejected exactly while a run is active; otherwise the run takes its turns as the loop does, after the prompts, and the agent is idle again at the end; after a quiet end each queue holds only what came after its last poll |
| AgentLoop.Agent.Continue | packages/agent/src/agent.ts:348-375 | Rejected exactly while a run is active, without messages, or after an assistant message with both queues empty; after an assistant message the run starts with what one drain of the steering queue gives, else of the follow-up queue, otherwise with nothing new; nothing drained is lost; the run takes its turns as the loop does, and after a quiet end each queue holds only what came after its last poll |
| Harness.AgentHarness.RecordWrite | packages/agent/src/harness/agent-harness.ts:674-684 | A write is applied at once if the harness is idle and waits otherwise; applied at once it stays in order exactly if nothing waits but the same write |
| Harness.AgentHarness.FlushPendingSessionWrites | packages/agent/src/harness/agent-harness.ts:462-486 | Applies every waiting write once, oldest first, including those made meanwhile |
| Harness.AgentHarness.HandleAgentEvent | packages/agent/src/harness/agent-harness.ts:488-515 | Every event keeps: each write asked for is in the session or waits, exactly once; the messages of the turn under way, and the response with its tool results of every turn that ended, stand together in the session |
| Harness.AgentHarness.Prompt | packages/agent/src/harness/agent-harness.ts:608-621 | Over a whole run the session gains exactly the messages that ended, each turn's response directly followed by its results, writes stay in order and none is left waiting; a run that fails to start leaves its early writes waiting |
| Harness.AgentHarness.WhileBusy | packages/agent/src/harness/agent-harness.ts:686-730 | Compaction and tree navigation leave what was written meanwhile waiting, although the harness is idle again |
| Harness.OvertakenAfterCompaction | packages/agent/src/harness/agent-harness.ts:833-841 | Concrete run in which a write deferred during compaction is overtaken by a later one |
| Harness.AgentHarness.AppendMessage | packages/agent/src/harness/agent-harness.ts:674-684 | The message is recorded as a write; where the write goes, what stays unchanged and when the order holds are as for RecordWrite |
| Harness.AgentHarness.SetModel | packages/agent/src/harness/agent-harness.ts:833-846 | The model changes and the change is recorded; where the write goes, what stays unchanged and when the order holds are as for RecordWrite |
| Harness.AgentHarness.SetThinkingLevel | packages/agent/src/harness/agent-harness.ts:852-865 | The level changes and the change is recorded; where the write goes, what stays unchanged and when the order holds are as for RecordWrite |
| Harness.AgentHarness.SetTools | packages/agent/src/harness/agent-harness.ts:871-900 | Refused, with the session and the waiting writes unchanged, exactly for repeated or unknown names; otherwise recorded; where the write goes, what stays unchanged and when the order holds are as for RecordWrite |
| Harness.AgentHarness.SetActiveTools | packages/agent/src/harness/agent-harness.ts:906-928 | Refused, with the session and the waiting writes unchanged, exactly for repeated or unknown names; otherwise recorded; where the write goes, what stays unchanged and when the order holds are as for RecordWrite |
| Harness.Direct | packages/agent/src/harness/agent-harness.ts:674-684 | The order of writes after a direct one: right exactly if all waiting writes equal it |
| AnsiProofs.ActiveCodesReplay | packages/tui/src/utils.ts:558-576 | Replaying the active codes of a reachable style into a cleared tracker rebuilds it, attributes, colours and hyperlink, and any further text then has the same effect |
| AnsiProofs.HistoryReplaced | packages/tui/src/utils.ts:612-623 | For any text the whole code history can be replaced by the codes active at its end |
| AnsiProofs.FormatOfParse | packages/tui/src/utils.ts:359-381 | A hyperlink code prints exactly as it was read, terminator included |
| AnsiProofs.TrackReachable | packages/tui/src/utils.ts:404-536 | Any text leads to a style whose colours and hyperlink can be printed and read back |
| AnsiProofs.LineEndResets | packages/tui/src/utils.ts:600-609 | What is written at the end of a line ends the underline and the hyperlink and nothing else |
| AnsiProofs.CodeStays | packages/tui/src/utils.ts:311-349 | Where an escape code ends does not depend on what follows it |
| AnsiProofs.JoinedApply | packages/tui/src/utils.ts:431-535 | Parameters joined by semicolons do what they do one by one (section 8.3.117 of ECMA-48) |
| AnsiCodes.ParameterMeans | packages/tui/src/utils.ts:465-533 | The table of parameters: a code with one parameter sets and clears exactly the attributes and colours that the table lists for it, 0, 21 to 29, 39 and 49 included, and stores its own number as a colour |
| AnsiCodes.ColorMeans | packages/tui/src/utils.ts:437-462 | A palette index or three components after 38 are the foreground, after 48 the background, and nothing else changes |
| AnsiTracker.AnsiCodeTracker.Process | packages/tui/src/utils.ts:404-536 | The field updates of the loop over parameters are the effect of the code |
| AnsiTracker.AnsiCodeTracker.UpdateTrackerFromText | packages/tui/src/utils.ts:612-623 | The index loop is the effect of the text |
| AnsiTracker.AnsiCodeTracker.GetActiveCodes | packages/tui/src/utils.ts:558-576 | The printed codes |
| AnsiTracker.AnsiCodeTracker.GetLineEndReset | packages/tui/src/utils.ts:600-610 | The printed reset |
| AnsiTracker.AnsiCodeTracker.Clear | packages/tui/src/utils.ts:553-556 | Back to the plain style |
| AnsiTracker.AcrossLineBreak | packages/tui/src/utils.ts:724-734 | A fresh tracker that reads the codes printed at a break and the next line ends in the state of one that read everything |
| Overlay.LayoutFits | packages/tui/src/tui.ts:896-994 | For all options the resolved column plus width stays within the terminal exactly if the left margin is smaller than its width, and within the margins if they leave room |
| Overlay.LayoutRowsFit | packages/tui/src/tui.ts:985-991 | The resolved row plus the shown height stays above the bottom margin exactly if margins and height fit the terminal |
| Overlay.SizeMeans | packages/tui/src/tui.ts:918-933 | The width asked for in cells or percent, or 80, is the width as far as the margins leave room and the least width allows; likewise the greatest height |
| Overlay.AnchorMeans | packages/tui/src/tui.ts:955-1031 | An overlay that fits goes to the edge that its anchor names, or to the middle with the odd row or column behind it, moved by its offset but not past the margins |
| Overlay.CompositeLineAt | packages/tui/src/tui.ts:1175-1223 | If the overlay lies within the line, the result is exactly as wide as the terminal: the base graphemes that end before the overlay, in their columns and styles, the overlay's own, then the base graphemes that begin behind it, in their styles, spaces for the rest; so the final truncation is not reached. Otherwise the result is truncated to the width |
| Overlay.RightPartStands | packages/tui/src/tui.ts:1208-1209 | The part behind the overlay stays in its columns exactly if no grapheme straddles the right edge; otherwise it moves left |
| Overlay.StraddlingShifts | packages/tui/src/tui.ts:1207-1209 | Concrete line in which it moves one column to the left |
| Overlay.ExtractSegments | packages/tui/src/utils.ts:1138-1209 | In one pass the parts before and after, with the styles they have in the line |
| Slices.SliceWithWidth | packages/tui/src/utils.ts:1083-1128 | A slice shows exactly the graphemes between the two columns: with strict those that end within it, otherwise those that begin within it; the returned width is the real one. Its styles are those of the line exactly if the style at its first column is; if it fills no column it cannot be wrong |
| Slices.SliceOutOfStep | packages/tui/src/utils.ts:1099-1117 | Concrete slice that shows a plain letter red, because the code that ends the red is placed before the code that starts it |
| Slices.FromLeftEdge | packages/tui/src/utils.ts:1083-1128 | From the left edge the styles are always those of the line |
| Overlay.CompositeOverlays | packages/tui/src/tui.ts:1031-1090 | Painting all overlays keeps lines that fit fitting and leaves uncovered lines alone. On a covered row the overlay painted last, if its left margin is inside the terminal, shows the graphemes of its line that fit in its columns, and spaces behind them, in a line exactly as wide as the terminal; where it is the only one, its line is composited into that of the content |
| Overlay.CoveredIsFull | packages/tui/src/tui.ts:1075-1086 | If every left margin is inside the terminal, each covered row is exactly as wide as the terminal |
| OverlayFrames.RenderWithOverlays | packages/tui/src/tui.ts:1268-1290 | Content that fits the width is never refused, whatever overlays are painted over it; from a right state the terminal then shows the composed lines, which are those of the content where no overlay covers them and show the topmost overlay in its columns where one does |
| Columns.ActiveItemsAreActiveCodes | packages/tui/src/utils.ts:1190-1194 | The items that stand for the prepended codes spell the active codes |
| Columns.ActiveItemsRestore | packages/tui/src/utils.ts:1190-1194 | The codes prepended to the part behind the overlay restore its style |
| JsonRepair.RepairJson | packages/ai/src/utils/json-parse.ts:32-83 | The index loop computes the repair |
| JsonRepair.RepairIsIdempotent | packages/ai/src/utils/json-parse.ts:32-83 | Repairing twice is repairing once |
| JsonRepair.UnchangedIffClean | packages/ai/src/utils/json-parse.ts:32-83 | A text is unchanged exactly if no literal has a raw control character or a backslash without a valid escape |
| JsonRepair.EscapeMeans | packages/ai/src/utils/json-parse.ts:3-3 | The eight letters of section 7 of RFC 8259 and no others, the u of a unicode escape apart, may follow a backslash, and each stands for its code unit |
| JsonRepair.RepairKeepsBoundaries | packages/ai/src/utils/json-parse.ts:32-83 | Everything outside the literals and where they begin and end is kept; no raw U+0000 to U+001F is left in a literal (section 7 of RFC 8259) |
| JsonRepair.RepairedMeansLenient | packages/ai/src/utils/json-parse.ts:47-80 | A repaired literal decodes to the lenient reading of the original exactly if every \u in it is followed by four hexadecimal digits; otherwise it stays malformed |
| JsonRepair.BadUnicodeStaysMalformed | packages/ai/src/utils/json-parse.ts:60-73 | Concrete literal that is not repaired |
| JsonRepair.LiteralIsRepairedAlone | packages/ai/src/utils/json-parse.ts:36-52 | A text is repaired literal by literal |

## Left out

- Renderer: Kitty image lines, Termux height changes, debug logs and the crash dump. Grapheme widths are given; tab and Thai normalization is not modelled.
- Renderer: a size change is an arbitrary new terminal; a terminal that changes size and back between two frames leaves a state in which only full redraws are shown to be right.
- Renderer: the first frame starts on a blank screen, whatever its size, and exactness is stated for lines that fit the width; the full redraw path does not check widths, so a line that is too wide wraps there.
- Renderer: render timers and the synchronized-output, cursor-visibility and colour-scheme sequences, which do not move the cursor or change rows.
- Scheduler: listeners and the repository do not throw or call back, and `recoverAfterRestart` runs when nothing executes.
- Scheduler: the final transition of an execution and its cleanup in `.finally` are one step. The code separates them by a microtask, and a pump that lands in that gap could restart a requeued task.
- Scheduler: timestamps, events, labels, working directories and budgets; the timeout of any running task may fire at any time. Ids are fresh, and a loaded file is one that a supervisor saved.
- Scheduler: waiter callbacks are numbers, and the sets of waiters one map from waiter to task.
- Agent loop: hooks, `convertToLlm`, the stream function and listeners do not throw; `handleRunFailure` is not modelled. A listener that throws on a turn_start after a poll would lose the polled messages.
- Agent loop: tool lookup, argument preparation, validation and the hook before a call are one choice between an immediate error and changed arguments; the tool and the hook after it are one choice of an outcome. That a call runs sequentially because of the configuration or of a tool is one choice per turn.
- AgentLoop.Agent.StreamAssistantResponse: a response starts at most once, because a provider sends one start event; with a second one the first partial message would stay in the context.
- Agent loop: timestamps, usage, result details and added tool names of messages are not modelled, nor are the `agentLoop` stream wrappers.
- Agent: clearing or resetting queues, `subscribe` and `waitForIdle`.
- Harness: its own prompts, skills, templates, queues and events; the session is an append-only log, so compaction entries, the current leaf and tree moves are not modelled. Storage does not fail.
- Harness: a listener of agent_end that starts another run before the first has returned is not covered; the last flush of the first run could then fall into a turn of the second.
- Harness: writes other than messages, model, thinking level and active tools (custom entries, labels, names), which take the same path.
- Messages: timestamps, usage and details; `reasoning_details`; arguments are strings; a thinking signature that names a core field of the parameter. `sanitizeSurrogates` is an arbitrary function, and an absent normalizer is the identity.
- Stdin: the conversion of a single high byte to an ESC sequence and the decoding of buffers. Characters stand for UTF-16 code units. Timers are steps that may or may not be taken.
- Styles: the wrapping of lines around the tracker. Numbers too large for exact floating point are natural numbers here, which no parameter of the switch distinguishes.
- Overlay: `Intl.Segmenter` and width tables; a line is a sequence of graphemes of given widths and escape codes. Image lines, focus order and visibility (the overlays are given in the order in which they are painted), and floating-point rounding of percentages.
- JSON: `parseJsonWithRepair` and `parseStreamingJson`, which call the platform parser and the `partial-json` library. Characters stand for UTF-16 code units.
- Provider clients, key tables, error-message tables, file storage, the command line and the remaining components.
