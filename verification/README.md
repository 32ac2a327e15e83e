# Verified models of the terminal UI, the agent loop and the provider adapters

This project models the parts of the repository whose behaviour is hardest to see from the code, and proves
what they promise. One module stands for one component:

- `Lines`, `TerminalModel`, `RendererSpec`, `Renderer`, `RendererSafety`, `RendererRefinement`, `RendererTheorems`,
  `RendererRuns`, `RendererCursor`, `RendererEconomy`: the differential renderer. `Tui` is the object with its shadow of
  the screen; `RendererSpec` says what a render writes and remembers; the other modules run those commands on a
  terminal after ECMA-48 (CUU in section 8.3.22, CUD in section 8.3.19, EL in section 8.3.41) and compare, for text,
  images, scrollback and cursor, and say how little is printed.
- `AgentTypes`, `ToolCalls`, `ToolExecution`, `AgentLoop`, `AgentTheorems`, `Agent`: the agent loop, the two tool
  executors, the queues, and the reducer that keeps a second copy of the transcript. Replies, tool outcomes, hook
  results, arrivals and the order of completion are inputs.
- `HarnessSpec`, `HarnessTheorems`, `Harness`: session writes that are put off while a run is on, and drains that can
  fail. What listeners do at each event, and which appends fail, is an input.
- `Ansi`, `StyleTracker`, `StyledText`, `Paragraphs`, `Wrap`: the style tracker and word wrapping of styled text.
- `Splice`, `Overlay`, `Composite`: cutting columns out of styled lines and putting an overlay into a line.
- `Messages`, `Transform`, `TransformTheorems`, `TransformWords`, `AnthropicRequest`, `AnthropicTheorems`,
  `RequestContents`, `Anthropic`: message normalisation and the request for the Anthropic API.
- `StdinBuffer`, `StdinEvents`, `StdinTheorems`, `StdinGrammar`: the input sequence splitter.
- `Sse`, `SseTheorems`: the decoder for server-sent events (WHATWG HTML Living Standard, sections 9.2.5 and 9.2.6).
- `Focus`: the overlay focus state machine.

Code that works by changing things step by step is a class or a loop here as well; its contracts tie it to functions,
and the theorems are about those functions. `dafny verify dfyconfig.toml` checks everything.

## Findings

Promises that the code does not keep on every input. The members named show an input that fails, and then the exact
condition.

- A cursor marker above the kept window leaves the renderer's cursor row off the terminal's, because upward moves stop
  at the top row (`RendererRuns.CursorAboveWindowDesynchronises`; `RendererTheorems.RenderAgreesExactlyWhen`).
- An image id on two lines: repainting the lower line deletes the image of the upper one
  (`RendererRuns.SharedImageIsLost`; `RendererTheorems.RenderAgreesExactlyWhen`).
- A column slice reads the codes at its edge before the codes in front of it, so a reset there can lose
  (`Splice.SliceCanRestyle`; `Splice.SliceKeepsStylesExactlyWhen`). The overlay code only slices from column zero,
  where this cannot happen.
- A failed turn is dropped from the request but its tool results stay
  (`AnthropicTheorems.FailedTurnLeavesItsResult`; `AnthropicTheorems.ResultsHaveUsesExactlyWhen`).
- A body cut between CR and LF dispatches an event early (`SseTheorems.CrLfCutMatters`;
  `SseTheorems.CutsDoNotMatterExactlyWhen`).
- Input cut behind ESC ESC and in front of an introducer is read differently (`StdinTheorems.EscEscCutMatters`;
  `StdinTheorems.CutsDoNotMatterExactlyWhen`).
- Unfinished input in front of a paste marker in the same buffer is dropped (`StdinTheorems.EscapeBeforePasteIsLost`;
  `StdinTheorems.InputBeforePasteSurvivesExactlyWhen`).
- A write left pending by a failed prompt is overtaken by the next write made while idle
  (`Harness.PendingWriteIsOvertaken`; `Harness.AgentHarness.RequestWrite`).
- A stream that begins a message twice puts a surplus message into the loop's context but not into the transcript
  (`AgentTheorems.SecondStartLeavesAPartial`; `AgentTheorems.TranscriptsAgreeExactlyWhen`).
- Input meant to leave an overlay that became invisible can go to another invisible overlay: the one that had the
  focus before, or one that a blocked restore leads to (`Focus.InvisibleOverlayGetsInput`,
  `Focus.ResumedInvisibleOverlayGetsInput`; `Focus.Manager.HandleInput` with the condition `MissesInput`).

## Model

| member | source | states |
|---|---|---|
| Renderer.Tui.DoRender | packages/tui/src/tui.ts:1127-1453 | One render writes to the terminal and records what the specification `RendererSpec.Plan` says for the frame, and stops with the offending row exactly when an incremental update meets a line that is too wide. From any terminal the cursor ends in the column behind the text in front of the lowest visible marker, shown as the setting says, and hidden without a marker. |
| Renderer.ExtractCursorPosition | packages/tui/src/tui.ts:1107-1124 | With a marker at or below the first visible row and none further down, the position is its row and the width of what stands in front of it, and exactly that marker is taken out; there is no position exactly when no visible row has a marker. |
| Renderer.ApplyLineResets | packages/tui/src/tui.ts:995-1003 | Every line that is not an image line gets a reset behind it; image lines stay as they are. |
| Renderer.CollectKittyImageIds | packages/tui/src/tui.ts:1006-1014 | The ids of a frame in order of first occurrence, without repetition. |
| Renderer.DeleteKittyImages | packages/tui/src/tui.ts:1016-1022 | One deletion per id, in order. |
| Renderer.ChangedRange | packages/tui/src/tui.ts:1226-1243 | First and last differing row of two frames. |
| Renderer.Tui.ExpandLastChangedForKittyImages | packages/tui/src/tui.ts:1024-1032 | The changed range is widened to the last previous line from its start on that holds an image. |
| Renderer.Tui.DeleteChangedKittyImages | packages/tui/src/tui.ts:1034-1046 | The deletions of the image ids in the changed rows of the previous frame; none for an empty range. |
| Renderer.Tui.PositionHardwareCursor | packages/tui/src/tui.ts:1463-1494 | The cursor is moved relative to the remembered row, put in its column and shown or hidden; without a position it is hidden. |
| Renderer.Tui.FullRender | packages/tui/src/tui.ts:1157-1187 | A full redraw writes clearing, frame and cursor, and records the frame, its window and its ids. |
| Renderer.Tui.CompareFrames | packages/tui/src/tui.ts:1226-1252 | The range to repaint: appended rows count as changed and images widen it. |
| Renderer.Tui.ChoosePath | packages/tui/src/tui.ts:1127-1316 | Which of the five ways of drawing is taken, with the believed viewport top and the changed range. |
| Renderer.Tui.DeleteTrailingLines | packages/tui/src/tui.ts:1263-1311 | The delete-only path erases exactly the surplus rows and returns to the end of the frame. |
| Renderer.Tui.PaintChanged | packages/tui/src/tui.ts:1350-1386 | The changed rows are erased and painted up to the first text line wider than the terminal, which stops the paint. |
| Renderer.Tui.BuildUpdate | packages/tui/src/tui.ts:1318-1405 | The buffer of an incremental update: deletions, scrolling, moves, painted rows and erased leftovers. |
| Renderer.Tui.UpdateChangedLines | packages/tui/src/tui.ts:1318-1453 | An incremental update writes and records what the specification says, or crashes with the first too wide row. |
| Renderer.Tui.Stop | packages/tui/src/tui.ts:633-653 | Stopping moves below the frame and shows the cursor. |
| Renderer.Tui.ForceRedraw | packages/tui/src/tui.ts:655-682 | A forced render forgets the frame and the dimensions, so that the next render clears the terminal. |
| RendererRefinement.ChangedRows | packages/tui/src/tui.ts:1226-1252 | Above the first changed row the frames agree, and no previous image at or below it lies behind the last changed row. |
| RendererRefinement.DeletedIds | packages/tui/src/tui.ts:1034-1046 | The ids deleted before repainting are exactly those drawn by the previous frame from the first changed row on. |
| RendererRefinement.NoScrolling | packages/tui/src/tui.ts:1318-1345 | At a constant height the paint position is always inside the window, so the scrolling branch is never taken. |
| RendererRefinement.DeleteTailRun | packages/tui/src/tui.ts:1263-1311 | After the delete-only buffer the terminal shows the shorter frame, and its images are the frame's exactly when none above was lost. |
| RendererRefinement.UpdateRun | packages/tui/src/tui.ts:1318-1405 | After an incremental buffer the terminal shows the new frame with the cursor on the final row. |
| RendererSafety.FullRun | packages/tui/src/tui.ts:1157-1187 | After a full redraw the terminal shows exactly the frame and exactly its images, whatever was there before. |
| RendererSafety.PositionRun | packages/tui/src/tui.ts:1463-1494 | Placing the cursor keeps agreement exactly when its row is not above the window. |
| RendererTheorems.RenderAgreesExactlyWhen | packages/tui/src/tui.ts:1127-1494 | One render from an agreeing terminal of unchanged size never crashes on lines that fit, remembers the new frame, and terminal and shadow agree again exactly when the cursor marker is not above the kept window and no image above the repainted rows was deleted. |
| RendererTheorems.RedrawShowsFrame | packages/tui/src/tui.ts:1157-1187 | A clearing redraw agrees with the frame from any terminal state whose live images the renderer knows. |
| RendererRuns.RefinesFullRedraw | packages/tui/src/tui.ts:1127-1494 | After an agreeing render the rows of the screen equal those of a full redraw exactly when the kept window is the bottom of the frame; images, cursor column and visibility always do. |
| RendererRuns.WindowRows | packages/tui/src/tui.ts:1127-1494 | Screen row r shows line `viewportTop + r` of the frame, or nothing below its end. |
| RendererRuns.ScrollbackHoldsTheRest | packages/tui/src/tui.ts:1127-1494 | The scrollback ends with the frame lines above the window. |
| RendererRuns.DistinctImagesKept | packages/tui/src/tui.ts:1006-1046 | If every image id occurs on one line only, no repaint loses an image. |
| RendererCursor.RenderPlacesCursor | packages/tui/src/tui.ts:1107-1124 | After any render, from any terminal, the cursor column is the width of what stands in front of the lowest visible marker and the cursor is shown as the setting says; with no visible marker it is hidden. |
| RendererCursor.SameCursor | packages/tui/src/tui.ts:1127-1494 | Whatever path a render takes, the cursor column and its visibility are those of a full redraw. |
| RendererCursor.StopLeavesFrame | packages/tui/src/tui.ts:633-653 | Stopping keeps all that is shown and parks a visible cursor at the start of the row below the frame. |
| RendererEconomy.PrintsTheChangedRange | packages/tui/src/tui.ts:1226-1405 | A render that is no full redraw clears nothing and prints exactly the rows from the first that differs to the last that differs or replaces an image, once each and in order. |
| RendererEconomy.RedrawsExactlyWhen | packages/tui/src/tui.ts:1189-1316 | Once something is shown a render redraws everything exactly when the width changed, or the height outside Termux, when clearing on shrinking is on, no overlay is open and the frame is below its largest size, when a row above the window changed, or when only rows were lost and none is left in the window or more than a screen went. |
| RendererRuns.FailsExactlyOnWideLines | packages/tui/src/tui.ts:1351-1383 | A render fails exactly when the incremental path meets a text line wider than the terminal, and then remembers what it remembered. |
| RendererRuns.RunsKeepAgreement | packages/tui/src/tui.ts:1127-1494 | Over every run of renders, resizes and forced redraws the terminal agrees with what the renderer remembers, which is the last frame: text, cursor row, images and scrollback. |
| RendererRuns.RunsFromBlankScreen | packages/tui/src/tui.ts:1127-1494 | From a blank screen, every admissible run leaves the screen showing its last frame: row by row the clusters and images of its line without marker, reset at its end; and the cursor on the row of the marker, in the column behind what is in front of it, shown as the setting says. |
| RendererRuns.CursorAboveWindowDesynchronises | packages/tui/src/tui.ts:1463-1494 | A concrete frame whose cursor marker lies above the window, after which cursor row and terminal disagree. |
| RendererRuns.SharedImageIsLost | packages/tui/src/tui.ts:1024-1046 | A concrete frame with one image id on two lines, after which the remaining image is gone. |
| ToolExecution.ExecuteSequential | packages/agent/src/agent-loop.ts:393-447 | The batch is the outcome of the calls in source order; one call at a time: at every moment at most one is running, and the result of a call is completed before the next one starts. Start, updates and end of every call are reported as its script and its result say. |
| ToolExecution.ExecuteParallel | packages/agent/src/agent-loop.ts:449-514 | For every interleaving the same batch as the sequential executor; every call that starts does so before any prepared call ends or any result is completed, and start, updates and end of every call are reported. |
| ToolExecution.UnabortedBatch | packages/agent/src/agent-loop.ts:393-514 | Without an abort there is one result per call, in source order; it is the outcome a tool gave or the error it threw, after the hook, or the refusal of a call that was not found, not valid or blocked, with the error flag set. The batch terminates exactly when it is not empty and all results ask for it. |
| ToolExecution.AbortedBatch | packages/agent/src/agent-loop.ts:393-514 | Under an abort the result ids are those of a prefix of the calls, shorter exactly when an abort was seen before the last call. |
| ToolExecution.ExecuteToolCalls | packages/agent/src/agent-loop.ts:371-391 | With sequential mode on or a found sequential tool among the calls they run one at a time, each result completed before the next start; otherwise all start before any result is completed. Batch and reports are the same either way. |
| AgentLoop.StreamAssistantResponse | packages/agent/src/agent-loop.ts:273-369 | The stream shows a start for each partial message that begins, an update for each one behind that, and the end of the reply, which is started exactly once if nothing began. The context grows by exactly the reply if and only if the stream begins a message at most once, and else by all its partial messages but the last in front of the reply. |
| AgentLoop.PerformTurn | packages/agent/src/agent-loop.ts:180-232 | A turn adds what was pending, the reply and the tool results to messages and trace, in this order; its stream and its tools show the events its script calls for. |
| AgentLoop.RunLoop | packages/agent/src/agent-loop.ts:156-267 | The nested loop keeps the record: trace, transcript and contexts are those of its turns, and every turn follows its script; what arrived on the queues is what was queued at the start and then what the script brings in before each poll made so far, all of it injected, pending or still queued in order; every turn injects exactly what the polls before it take from what is queued by then, and follows another only if tools ask for it or something is injected; the run ends only for one of its three reasons. |
| AgentLoop.RunAgentLoop | packages/agent/src/agent-loop.ts:96-119 | A run from prompts satisfies the same record, finished or suspended at any turn boundary; its first turn injects what the first poll takes, and nothing if that poll is skipped. |
| AgentLoop.RunAgentLoopContinue | packages/agent/src/agent-loop.ts:121-144 | Continuing fails exactly on an empty transcript or after an assistant message, else satisfies the same record. |
| AgentTheorems.RunGrammar | packages/agent/src/agent-loop.ts:96-267 | A finished run starts once, alternates turn starts and turn ends, ends once at its end, and completes exactly the messages it returns, in order. |
| AgentTheorems.UnfinishedGrammar | packages/agent/src/agent-loop.ts:156-267 | A run that is not over has alternated turn starts and ends so far and completed prompts and turns; a cut anywhere shows a prefix of that. |
| AgentTheorems.PrefixOfRun | packages/agent/src/agent-loop.ts:96-267 | Life cycle and completed messages of a cut trace are prefixes of those of the whole. |
| AgentTheorems.TranscriptsAgreeExactlyWhen | packages/agent/src/agent.ts:541-588 | At each turn end the reduced transcript is the old one, the prompts and the turns so far, nothing is streaming and no tool pending even with repeated ids, and the loop's context is the same transcript exactly when no stream began a message twice. |
| AgentTheorems.PartialsAreShown | packages/agent/src/agent-loop.ts:308-366 | At every point of every stream of a run, reducing the events so far gives as streaming message the last partial message of the stream, and none if there is none, with the transcript as it was before the reply. |
| AgentTheorems.ReplyIsShown | packages/agent/src/agent-loop.ts:308-366 | The events of a reply are, one for one, those of its stream from the first start on, and the end of the reply; without a start they are a start and an end of the reply. |
| AgentTheorems.SecondStartLeavesAPartial | packages/agent/src/agent-loop.ts:308-366 | A concrete stream that starts a message twice, after which the context holds the first partial message and the reduced transcript does not. |
| AgentTypes.PendingAreRunning | packages/agent/src/agent.ts:541-588 | In any trace a call is pending in the reduced state exactly when its last start has no end behind it. |
| AgentTypes.ErrorIsTheLast | packages/agent/src/agent.ts:541-588 | The error shown is that of the last turn end that carries one. |
| AgentTheorems.ReducedAtEnd | packages/agent/src/agent.ts:541-588 | On return the reduced transcript is the old one followed by the returned messages, with nothing streaming or pending. |
| AgentTheorems.QueuesAreFifo | packages/agent/src/agent.ts:129-163 | For both queues, finished or suspended: all that was queued before the run and all that its script enqueued up to the polls made equals what was injected, then what is pending, then the remaining queue, in order. |
| AgentTheorems.QueuedFirst | packages/agent/src/agent.ts:359-386 | Messages taken off the front of a queue for the prompts come first among all that arrive: nothing is lost between a continued run and the queue it starts from. |
| AgentTheorems.SkippedPoll | packages/agent/src/agent.ts:443-480 | A run whose first poll is skipped injects nothing before its first reply. |
| AgentTheorems.FollowUpsWait | packages/agent/src/agent-loop.ts:240-264 | Over every run, finished or not: a follow-up comes only after a turn with no continuing tool calls and an empty steering poll; a message of a queue in one-at-a-time mode is injected alone, whatever the mode of the other queue. |
| AgentTheorems.SteeringIsPrompt | packages/agent/src/agent-loop.ts:160-252 | Over every run: steering messages queued by the end of a turn are taken into the very next turn, the first of them or, if the queue drains all, every one. |
| AgentTheorems.NothingIsLeft | packages/agent/src/agent-loop.ts:240-267 | A run that ends on its own has injected every follow-up ever queued and every steering message queued by its last steering poll. |
| AgentTheorems.FailureEndsTheRun | packages/agent/src/agent-loop.ts:213-260 | A reply that failed or was aborted runs no tools and ends the run, and so does a request to stop after a turn. |
| Agent.PendingMessageQueue.Drain | packages/agent/src/agent.ts:145-158 | A drain takes the front of the queue, all of it or at most one message, and leaves the rest. |
| Agent.Agent.ProcessEvents | packages/agent/src/agent.ts:541-588 | The state is the reduction of all events. |
| Agent.Agent.RunWithLifecycle | packages/agent/src/agent.ts:483-534 | When the executor is done or has thrown the agent is idle, and its transcript has grown by the completed messages and a failure message after a throw; while the run is on it stays active. |
| Agent.Agent.RunPromptMessages | packages/agent/src/agent.ts:407-421 | A finished run without a throw leaves the old transcript followed by the returned messages; without a throw, injected messages, pending ones and the queues are together all that was queued before and during the run. |
| Agent.Agent.Prompt | packages/agent/src/agent.ts:348-357 | Prompting fails exactly while busy, else runs the loop on the prompts with the same promise about the queues. |
| Agent.Agent.Continue | packages/agent/src/agent.ts:359-386 | The errors of continuing; after an assistant message it runs on queued steering messages, and then the first turn injects nothing, else on follow-ups; the messages taken, those injected or pending and the queues are together all that was queued. |
| Harness.MessageQueue.DrainQueuedMessages | packages/agent/src/harness/agent-harness.ts:409-419 | A drain whose notification fails restores the order around concurrent pushes; no message is lost or overtaken. |
| Harness.AgentHarness.RequestWrite | packages/agent/src/harness/agent-harness.ts:868-960 | A write is logged at once while idle and put off while a run is on, and refused only if its append fails while idle; all writes stay in the order asked for exactly when a run is on or nothing but copies of the write is pending. |
| Harness.AgentHarness.FlushPendingSessionWrites | packages/agent/src/harness/agent-harness.ts:484-508 | The loop over the pending writes does what `HarnessSpec.Flush` says, and throws when that says so. |
| Harness.AgentHarness.PrepareNextTurn | packages/agent/src/harness/agent-harness.ts:457-466 | Before the next turn the pending writes are flushed as specified; while a run is on it throws exactly if some are left. |
| Harness.AgentHarness.HandleNext | packages/agent/src/harness/agent-harness.ts:457-537 | A turn that follows another is prepared before its first event, and only that, so that then only what is asked for from there on is pending. |
| Harness.AgentHarness.HandleAgentEvent | packages/agent/src/harness/agent-harness.ts:510-537 | One event leaves log, pending writes and phase as `HarnessSpec.Handle` says, and throws exactly when that says so. |
| Harness.AgentHarness.EmitRunFailure | packages/agent/src/harness/agent-harness.ts:539-551 | A failure is reported by its four events, one after the other, up to the first that throws. |
| Harness.AgentHarness.PlayRun | packages/agent/src/harness/agent-harness.ts:582-609 | A run of the loop is handled event by event up to the first that throws or to where the loop breaks off; it throws exactly for such an event, a break or an unfinished run, and so not if all appends succeed and no listener throws; the log grows by the messages of the events taken, with writes only between turns, and every turn whose end was taken is in one piece. |
| Harness.AgentHarness.Prompt | packages/agent/src/harness/agent-harness.ts:553-643 | A prompt keeps all writes in the order asked for and those put off in the order put off: each of the two is what was logged before, then pending before, then asked for by the handlings. Turns stay whole, the messages logged are those of the events taken and the failure reported. It ends idle, fails exactly when a failure cannot be reported, and leaves writes pending only if it failed and an append of its last flush failed. |
| HarnessTheorems.StretchIsWhole | packages/agent/src/harness/agent-harness.ts:510-537 | No write lands inside a stretch of events without an end of a turn. |
| HarnessTheorems.LoggedMessages | packages/agent/src/harness/agent-harness.ts:510-537 | The messages in the log of a run are exactly those its handled events completed, in order. |
| HarnessTheorems.NoWriteSplitsATurn | packages/agent/src/harness/agent-harness.ts:510-537 | Over any run, even one that breaks off later, no write lands between a reply and its tool results. |
| HarnessTheorems.FlushMoves | packages/agent/src/harness/agent-harness.ts:484-508 | A flush logs what was pending and what is asked for during its appends, in order, up to the first append that fails; that one stays first and nothing is lost. |
| HarnessTheorems.FlushAccounted | packages/agent/src/harness/agent-harness.ts:484-508 | Writes logged, then pending, are after a flush what they were before and what was asked for meanwhile; it throws exactly if some are left, and only if an append failed. |
| HarnessTheorems.EventHandled | packages/agent/src/harness/agent-harness.ts:510-537 | Handling an event accounts for all writes, logs its message if it could be logged, puts other writes only at ends of turns and runs, and is idle only after the end of a run. |
| HarnessTheorems.AskedByEvent | packages/agent/src/harness/agent-harness.ts:510-537 | While a turn is on, the writes accounted for are those the listeners of the event ask for, then those that arrive during its flush, then those of the last listeners, up to where it throws. |
| HarnessTheorems.AskedAtEnd | packages/agent/src/harness/agent-harness.ts:525-534 | At the end of a run what arrives during the flush is put off and what is asked for after it is not. |
| HarnessTheorems.ListenersAreHeard | packages/agent/src/harness/agent-harness.ts:510-537 | Over a run, what the listeners of a taken event ask for is in one piece among the writes the session accounts for. |
| HarnessTheorems.CalmPlay | packages/agent/src/harness/agent-harness.ts:510-537 | If appends succeed and listeners do not throw, every event of a run is handled. |
| HarnessTheorems.PromptHolds | packages/agent/src/harness/agent-harness.ts:553-643 | A prompt accounts for all writes, ends idle, and fails exactly when its failure cannot be reported. |
| HarnessTheorems.CalmPrompt | packages/agent/src/harness/agent-harness.ts:553-643 | A prompt does not fail if its run is neither broken off nor disturbed, or if its failure is reported undisturbed. |
| Harness.PendingWriteIsOvertaken | packages/agent/src/harness/agent-harness.ts:609-643 | A sequence of operations after which a write is pending while idle and the next write is logged before it. |
| Ansi.ActiveCodesRoundTrip | packages/tui/src/utils.ts:537-555 | Replaying the active codes into a cleared tracker restores its state, for every state the tracker can reach. |
| Ansi.ProcessReachable | packages/tui/src/utils.ts:383-515 | Every code leads from a reachable state to a reachable one. |
| Ansi.LineEndResetCloses | packages/tui/src/utils.ts:579-589 | The codes at a line end switch off underline and hyperlink and nothing else. |
| Ansi.SwitchesOn | packages/tui/src/utils.ts:440-515 | The code that switches an attribute on sets it and nothing else. |
| Ansi.SwitchesOff | packages/tui/src/utils.ts:440-515 | The code that switches an attribute off clears it, and of the others only the one that shares the code (bold and dim); colours and hyperlink stay. |
| Ansi.ColourIsSet | packages/tui/src/utils.ts:502-511 | The standard and bright colour codes set the text colour for 30 to 37 and 90 to 97 and the background for 40 to 47 and 100 to 107. |
| Ansi.ColoursReset | packages/tui/src/utils.ts:440-515 | Codes 39 and 49 take back the text and the background colour, 21 takes back bold, and nothing else. |
| Ansi.ParametersInOrder | packages/tui/src/utils.ts:415-515 | A code with several parameters works like its parameters one after the other, where 38 and 48 take the colour behind them along. |
| StyleTracker.AnsiCodeTracker.Process | packages/tui/src/utils.ts:383-515 | Tracking a code in the fields is the style transition of the specification. |
| StyleTracker.AnsiCodeTracker.GetActiveCodes | packages/tui/src/utils.ts:537-555 | The active codes of the state held in the fields. |
| Wrap.SplitIntoTokens | packages/tui/src/utils.ts:607-690 | The tokens joined are the text, and with something visible in it every token is a word, a run of spaces or one wide character, and no two neighbours belong to one word or one run. |
| Wrap.BreakLongWord | packages/tui/src/utils.ts:816-883 | A broken word loses nothing, each of its lines read alone has the word's styles, fits the width, and is followed by a cluster that would not have fitted; the tracker ends in the word's last style. |
| Wrap.WrapSingleLine | packages/tui/src/utils.ts:719-798 | One line is laid out in order and in style, only blanks at line ends are dropped, every line but the last is closed, and lines fit when every cluster does. Lines are filled: a line ends only where the next word or cluster would not have fitted, and a word is split only if it is wider than a line. |
| Wrap.WrapTextWithAnsi | packages/tui/src/utils.ts:694-717 | Every cluster is shown in order and in its style when each output line is read from the plain style; only blanks at line ends are left out; lines fit the width when every cluster does and the space is the only blank. The result is, line for line of the text, a non-empty part for each, and within a part lines are filled and no word that fits a line is split. |
| Splice.SliceWithWidth | packages/tui/src/utils.ts:1062-1111 | The slice of some columns and its width. |
| Splice.PiecesAreRange | packages/tui/src/utils.ts:1062-1111 | The pieces a slice keeps are exactly the clusters that stand in its columns, and fit if it is strict, in the line's styles. |
| Splice.SliceKeepsStylesExactlyWhen | packages/tui/src/utils.ts:1062-1111 | A slice shows its columns in the line's styles exactly when it keeps nothing or the codes at its edge can trade places with the codes before them. |
| Splice.SliceKeepsStylesWithoutMeetingCodes | packages/tui/src/utils.ts:1062-1111 | That is so whenever no code stands right at the edge, or none in front of it. |
| Splice.SliceFromStartKeepsStyles | packages/tui/src/utils.ts:1062-1111 | A slice from the first column always keeps the styles. |
| Splice.SliceCanRestyle | packages/tui/src/utils.ts:1062-1111 | A concrete line whose slice comes out bold although the text is plain. |
| Overlay.ExtractSegments | packages/tui/src/utils.ts:1117-1188 | The segment before the overlay is what the line shows up to it, and the segment behind shows its columns in the line's styles and fits. |
| Composite.CompositeLineAt | packages/tui/src/tui.ts:1049-1097 | For lines of any widths the composed line is base, overlay and base, each padded to its columns and in its own styles, cut to the terminal if it is too wide; if no base cluster crosses into the overlay it is exactly as wide as the terminal; with single-column clusters every screen column shows the overlay inside it and the base outside. |
| Composite.SingleColumnsSplice | packages/tui/src/tui.ts:1049-1097 | With single-column clusters every screen column shows the overlay inside it and the base outside, in their own styles, or a space. |
| Transform.DowngradeUnsupportedImages | packages/ai/src/providers/transform-messages.ts:35-62 | Images of users and tool results are replaced, message by message, for models without image input. |
| Transform.ReplacedKeepsTexts | packages/ai/src/providers/transform-messages.ts:15-33 | After the replacement no image is left and every other text is there, in order. |
| Transform.TransformMessages | packages/ai/src/providers/transform-messages.ts:64-219 | Both passes of the normalisation compute the specified history. |
| TransformTheorems.SecondPassPairs | packages/ai/src/providers/transform-messages.ts:155-219 | Whatever the history, the second pass leaves every call answered right behind its message, and no failed turn. |
| TransformTheorems.SecondPassFixesExactly | packages/ai/src/providers/transform-messages.ts:155-219 | The second pass changes nothing exactly when every call is answered and no turn failed. |
| TransformTheorems.SecondPassKeepsTheRest | packages/ai/src/providers/transform-messages.ts:155-219 | The result is the history without its failed turns, message by message in order, with nothing but synthetic results put in. |
| TransformTheorems.ResultsFollowTheirCalls | packages/ai/src/providers/transform-messages.ts:64-154 | A later result of a call made once names the call after renaming, unless the normaliser makes a non-empty id empty. |
| TransformTheorems.TransformIsIdempotent | packages/ai/src/providers/transform-messages.ts:64-219 | Normalising twice for a model is normalising once, for every idempotent id normaliser. |
| TransformWords.NormalisationKeepsWords | packages/ai/src/providers/transform-messages.ts:64-219 | The words that users, models and tools say are, in order and under the same role, those of the history without its failed turns; thinking that another model wrote becomes text. |
| TransformWords.OwnBlocksStay | packages/ai/src/providers/transform-messages.ts:90-147 | For the model that wrote them blocks stay as they are but for empty thinking. |
| TransformWords.NothingPrivateCrosses | packages/ai/src/providers/transform-messages.ts:90-147 | To another model no thinking block and no signature goes. |
| TransformWords.FirstPassKeepsTheRest | packages/ai/src/providers/transform-messages.ts:64-154 | The first pass leaves user messages alone and changes nothing but the call id of a result and the blocks of a reply. |
| TransformWords.ImagesReachOnlySeeingModels | packages/ai/src/providers/transform-messages.ts:35-62 | No image is left in what is sent to a model that cannot see, and for one that can nothing is replaced. |
| AnthropicRequest.NormalizedIdIsValid | packages/ai/src/providers/anthropic.ts:999-1001 | Normalised ids are valid, exactly the valid ids are left alone, and only the empty id becomes empty. |
| Anthropic.ConvertMessages | packages/ai/src/providers/anthropic.ts:1003-1147 | Whatever the history, every tool use in the request is answered in the very next message, and the request says what the normalised history says: the same texts that are not blank, thinking, calls with names and arguments, results with error flags, and images, in order and under the same role. |
| RequestContents.RequestKeepsWords | packages/ai/src/providers/anthropic.ts:1003-1147 | What is said in the request is what the normalised history means for the settings, without the blank texts; its words are those of the history itself without its failed turns. |
| AnthropicRequest.LinesJoin | packages/ai/src/providers/anthropic.ts:109-124 | Result content without images is its texts joined by line ends. |
| AnthropicTheorems.ResultsHaveUsesExactlyWhen | packages/ai/src/providers/anthropic.ts:1003-1147 | Every result of the request belongs to a use in the message before it exactly when the renamed history is anchored: no result lacks a call it follows. |
| AnthropicTheorems.ResultsHaveUsesWhenBehind | packages/ai/src/providers/anthropic.ts:1003-1147 | It is so whenever in the history itself every result is behind its call: the id is called once, by a turn that did not fail, with only results in between. |
| AnthropicTheorems.ResultsNameTheirCalls | packages/ai/src/providers/anthropic.ts:999-1147 | With this provider's ids a later result of a call made once always names it. |
| AnthropicTheorems.RequestOfNormalized | packages/ai/src/providers/anthropic.ts:1003-1147 | A history that was normalised before gives the same request. |
| AnthropicTheorems.FailedTurnLeavesItsResult | packages/ai/src/providers/anthropic.ts:1003-1147 | A failed turn with a call and its result gives a request with a result but no use. |
| StdinBuffer.ExtractCompleteSequences | packages/tui/src/stdin-buffer.ts:192-255 | The loop cuts the buffer into the specified sequences and remainder. |
| StdinBuffer.ExtractConserves | packages/tui/src/stdin-buffer.ts:192-255 | Sequences joined, with the remainder behind, are the buffer. |
| StdinBuffer.ExtractSplitsWell | packages/tui/src/stdin-buffer.ts:192-255 | Every sequence is a single character or a whole escape sequence, and the remainder is an unfinished one. |
| StdinBuffer.ExtractInChunks | packages/tui/src/stdin-buffer.ts:192-255 | Extracting in two steps gives what one step gives, exactly unless the cut splits an escape. |
| StdinBuffer.SecondMouseCheckIsRedundant | packages/tui/src/stdin-buffer.ts:84-130 | The second check of a mouse report never decides anything the first did not. |
| StdinGrammar.SequencesComeOut | packages/tui/src/stdin-buffer.ts:24-255 | Any series of characters, control sequences, mouse reports, SS3 keys, meta keys and OSC, DCS and APC strings, joined, is cut into exactly those, with nothing left. |
| StdinGrammar.KeysAreReported | packages/tui/src/stdin-buffer.ts:287-398 | Each of them gives its one event, in order. |
| StdinGrammar.UnfinishedWaits | packages/tui/src/stdin-buffer.ts:192-387 | An unfinished sequence gives no event until the timer flushes it as one. |
| StdinGrammar.ReportSwallowsItsCharacter | packages/tui/src/stdin-buffer.ts:389-398 | A reported key swallows its own character right behind it and no other. |
| StdinEvents.InputBuffer.Process | packages/tui/src/stdin-buffer.ts:287-369 | One chunk changes buffer, paste mode and pending duplicate, and emits events, as specified; the recursion ends. |
| StdinEvents.InputBuffer.EmitDataSequence | packages/tui/src/stdin-buffer.ts:389-398 | A sequence is emitted unless it repeats the key just reported. |
| StdinEvents.InputBuffer.OnTimeout | packages/tui/src/stdin-buffer.ts:371-387 | The flush timer emits the unfinished input as it is. |
| StdinEvents.PendingIsLastReport | packages/tui/src/stdin-buffer.ts:184-190 | Only the sequence right before decides what counts as a duplicate. |
| StdinTheorems.CutsDoNotMatterExactlyWhen | packages/tui/src/stdin-buffer.ts:287-398 | For typed input, chunks give the events of the uncut input exactly when no cut splits an escape; then the state is the same too. |
| StdinTheorems.EscEscCutMatters | packages/tui/src/stdin-buffer.ts:192-255 | Two chunks, ESC ESC and an arrow's tail, that give other events than the uncut input. |
| StdinTheorems.PasteRoundTrip | packages/tui/src/stdin-buffer.ts:287-369 | For every cut, a paste gives one event with its exact content, before anything behind it. |
| StdinTheorems.InputBeforePasteSurvivesExactlyWhen | packages/tui/src/stdin-buffer.ts:336-369 | The sequences in front of a paste marker hold all the input there exactly when none of it is unfinished, and its events carry all of it exactly when in addition no sequence is a duplicate. |
| StdinTheorems.EscapeBeforePasteIsLost | packages/tui/src/stdin-buffer.ts:336-369 | A lone Escape in one chunk with a paste behind it gives no event. |
| Sse.Decoder.DecodeSseLine | packages/ai/src/providers/anthropic.ts:293-317 | One line changes the decoder state and dispatches as specified. |
| Sse.Decoder.FlushSseEvent | packages/ai/src/providers/anthropic.ts:277-291 | A pending event is dispatched and the state reset; otherwise nothing happens. |
| Sse.IterateSseMessages | packages/ai/src/providers/anthropic.ts:348-405 | The events of all chunks and of the end of the stream. |
| SseTheorems.CutsDoNotMatterExactlyWhen | packages/ai/src/providers/anthropic.ts:319-405 | Chunks give the events of the uncut body exactly when no cut makes a CR dispatch a pending event before its LF with more than a line end behind. |
| SseTheorems.KeptLineEndsAreClean | packages/ai/src/providers/anthropic.ts:319-405 | No harm is done if no cut falls between CR and LF. |
| SseTheorems.CrLfCutMatters | packages/ai/src/providers/anthropic.ts:319-405 | Two chunks cut between CR and LF give two events where the uncut body gives one. |
| SseTheorems.BlankLineMatters | packages/ai/src/providers/anthropic.ts:277-317 | A blank line in front of a text changes the events exactly when an event is pending and the text starts with a line that is not blank. |
| SseTheorems.PrintedEventsDecode | packages/ai/src/providers/anthropic.ts:277-405 | Decoding printed events gives back their names and data lines, for every kind of line end, with or without a space behind the colon. |
| SseTheorems.DataIsJoined | packages/ai/src/providers/anthropic.ts:277-291 | Data lines are joined with a line feed between each two. |
| SseTheorems.OtherLines | packages/ai/src/providers/anthropic.ts:293-317 | Comments and fields other than event and data change nothing but the raw record. |
| SseTheorems.BareField | packages/ai/src/providers/anthropic.ts:293-317 | A field name alone on its line has the empty value. |
| SseTheorems.UnterminatedEventDecodes | packages/ai/src/providers/anthropic.ts:390-405 | An event without its final blank line is dispatched all the same. |
| Focus.Manager.IsOverlayFocusAncestor | packages/tui/src/tui.ts:426-435 | The walk up the focus chain ends even on a cycle, and finds a component exactly when it is on the chain. |
| Focus.Manager.SetFocusInternal | packages/tui/src/tui.ts:336-399 | Focus and restore state change as decided, and the flags follow the focus. |
| Focus.Manager.GrantedWhenInactive | packages/tui/src/tui.ts:336-399 | Without a restore in the way a request is granted. |
| Focus.Manager.OverlayIsGranted | packages/tui/src/tui.ts:336-399 | A request for an overlay's component is granted, and its visible entry becomes eligible to get the focus back. |
| Focus.Manager.LeavingBlocks | packages/tui/src/tui.ts:336-399 | Leaving the eligible overlay for a component off its focus chain blocks the restore; for one on the chain it stays. |
| Focus.Manager.BlockedResumes | packages/tui/src/tui.ts:411-415 | When the blocking component gives the focus up, the overlay gets it. |
| Focus.Manager.BlockMovesOn | packages/tui/src/tui.ts:336-415 | A request for another component resumes the restore when the blocking one is no longer mounted or the restore has a target of its own; otherwise the block moves on with the focus. |
| Focus.Manager.ShowOverlay | packages/tui/src/tui.ts:459-473 | A shown overlay is on top of the stack, in front, remembers who had the focus, and takes it if it captures input and is visible. |
| Focus.Manager.Hide | packages/tui/src/tui.ts:477-491 | A removed overlay leaves the stack, entries that pointed to it point further, and if it had the focus a request goes to the visible overlay in front, or with none to what had the focus before. |
| Focus.Manager.SetHidden | packages/tui/src/tui.ts:492-512 | Hiding moves the focus on only if the overlay had it, as for a removed one; showing again takes it, in front. |
| Focus.Manager.FocusOverlay | packages/tui/src/tui.ts:513-518 | A visible overlay on the stack takes the focus and comes to the front; any other changes nothing. |
| Focus.Manager.Unfocus | packages/tui/src/tui.ts:519-547 | A blocked restore is retargeted; else, if the overlay has the focus, the request goes to the target asked for, to the overlay in front or to what had the focus before; a mere claim is given up. |
| Focus.Manager.HideOverlay | packages/tui/src/tui.ts:555-568 | The last overlay is removed and the focus handed on as for any other. |
| Focus.Manager.HandleInput | packages/tui/src/tui.ts:704-771 | Input first settles the focus and goes to the component that then has it: from an overlay that became invisible to the visible overlay in front, or else back along what had the focus before and where a restore is due. With no component shown twice the receiver is an invisible overlay exactly when `MissesInput` holds beforehand. |
| Focus.InvisibleOverlayGetsInput | packages/tui/src/tui.ts:733-745 | Two overlays, one over the other, become invisible: the next input goes to the first of them. |
| Focus.ResumedInvisibleOverlayGetsInput | packages/tui/src/tui.ts:746-758 | A blocked restore that resumes at an invisible overlay: the next input goes there. |
| Focus.Manager.FocusComesBack | packages/tui/src/tui.ts:336-424 | An overlay left for a mounted component off its focus chain has the focus again when it is given up, after any operations that leave the overlay alone. |
| Focus.Manager.Run | packages/tui/src/tui.ts:336-568 | Over every sequence of operations exactly the focused one of the given components has its flag set, a restore that waits names an overlay on the stack, every overlay shown has its handle, and only such overlays come onto the stack. |

## Left out

- RendererRuns.RunsKeepAgreement: a terminal that is resized and resized back between two renders is not an event of
  the runs, because the renderer cannot see it; on Termux a change of height alone is not one either.
- RendererTheorems.RenderAgreesExactlyWhen: lines are taken to fill one row; wrapping of too wide lines at the margin
  on a full redraw, multi-row images and the parsing of graphics parameters are not modelled.
- Wrap.WrapTextWithAnsi: the width bound is promised for clusters between one column and the width with the space as
  the only blank, because tabs and zero-width clusters can break it; styles and order are promised for all text.
- Renderer.ApplyLineResets: the normalisation of Thai and Lao vowels in front of the reset is taken as done.
- Focus.Manager.HandleInput: the exact condition is for stacks on which no component is shown twice; for others the
  contract says which component receives the input.
- Focus.Manager.FocusComesBack: operations that show, focus or unhide another capturing overlay, or hide the top of
  the stack, do not count as leaving the overlay alone, although some of them may change nothing.
- Overlay.ExtractSegments: which codes stand in front of the segment behind the overlay is not fixed, only that they
  bring the style in force there.
- Grapheme segmentation and width tables: clusters and widths are given.
- Component trees, `visible` callbacks and whether a component is mounted are inputs of the focus machine; input
  listeners, cell-size replies and debug keys are not part of this model.
- Layout of overlays (anchors, sizes, margins): columns and widths are given.
- Timers: the flush timer is a step of its own; render scheduling and throttling are not modelled.
- Debug and crash logs, environment switches and terminal start-up.
- Hooks that change their arguments, and hooks that throw other than where a run or a handler throws.
- `prepareNextTurn` replacing the context; queue modes that change during a run; clearing a queue during a run.
- Agent.Agent.RunPromptMessages: the loop works on the contents of the queues and they are stored back when it stops,
  so listeners that look at a queue during a run are not modelled.
- Abort signals are inputs: which calls see the abort is given.
- Validation of tool arguments by schema: whether a call is found, valid and allowed is an input.
- Usage figures, timestamps, cache markers and thinking signatures that only pass through a request.
- Decoding of bytes: strings are sequences of UTF-16 units, stream decoding and conversion of high bytes are given,
  and unpaired surrogates are not singled out.
- Abort and locks of the response reader.
- Harness.AgentHarness.Prompt: prompts that overlap, the queue for the next turn, `abort`, compaction and navigation
  of the session tree are not modelled; the session is a log that only grows.
- Other provider adapters, which repeat the grouping of tool results.
