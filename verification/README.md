# Verified model of the agent workbench's session stream and control plane

A Dafny model of the parts of the workbench that keep state across a network or
across interleaved requests, with proofs that hold for every input and every run.

- **Session stream** (`Events`, `Views`, `Compaction`, `Approvals`, `Projection`,
  `Projector`, `Transcript`, `Rendering`, `Turns`, `Rows`, `SessionStream`, `StreamProtocol`,
  `QuestionProtocol`).
  The server appends to a log and streams it; the browser dedups by sequence
  number, batches per animation frame, projects incrementally with row objects
  written in place, and keeps a compacted event list. `Projection` is the plain fold
  of the log, `Projector` the mutating class proved to agree with it, `Rows` the
  transcript as the log alone describes it, row by row and field by field, proved equal
  to the fold, `Transcript`, `Rendering` and `Turns` what holds of every projected
  transcript, and `StreamProtocol` the whole system with drops, reconnects, snapshots, resumes,
  repeated frames and approval envelopes; `QuestionProtocol` relates the questions
  on screen to those the server waits for, each of which announces its end once
  (src/harness/approval/policy.ts:203-205 with src/web/server.ts:2206-2212).
- **Global model defaults** (`Defaults`): epoch-fenced reads, queued writes, and a
  server record.
- **Message submission** (`Submission`): request ids against dedup in the log,
  under lost and late requests, lost replies, resends, edits and retried turns.
- **Plugin kernel** (`Registry`): re-entrant wake-up, with its termination measure and
  what every run leaves in order.
- **Smaller state** (`SerialQueue`, `Grants`, `Providers`, `Pairing`, `Terminals`,
  `Chips`, `FileSearch`, `InheritedContext`).

Code that changes things in place is a class or a method with a loop, proved
against a function on values; protocols are state machines over those functions,
with an invariant and a theorem about all runs. `Basics` holds shared facts.
`dafny verify dfyconfig.toml` checks everything.

## Assumptions

- The session log is append-only and its sequence numbers are positive and
  strictly increasing (`Session.append` in src/harness/session/session.ts).
- Frames of one connection arrive in order; a new connection replaces the old one.
- The defaults record is written only by this client, and a rejected write did not
  commit, as the comment at web/App.tsx:212-213 says; what the server makes of a
  stored record (`Providers.RepairGlobal`) is a parameter of the protocol.
- Random ids are fresh (a question is asked once under its id), the keyed verifier is
  injective, the clock does not go back and each call reads it once.
- `samePath` compares a key of each path, `localeCompare` is a total preorder and
  case folding is a parameter.
- The page asks for a defaults edit only where its menus are shown, which needs a
  confirmed record (web/App.tsx:375, 1308, 1322; web/components/composer/Composer.tsx:459, 539),
  and submits only while the rendered sending flag is down
  (web/components/composer/Composer.tsx:375, 583, 598).

## Where the code and its comments part

- The comment at web/lib/inline-chips.ts:11-13 holds for every string
  (`Chips.PrintParsed`); for the converse the conditions of `Chips.Readable` are
  sufficient (`Chips.ParsePrinted`).
- src/web/agent-delegation.ts:26-32 promises content "up to `maxChars`"; the code
  exceeds it exactly when `InheritedContext.BareMark` holds of some number of newest
  messages (`InheritedContext.ProjectionMeans`).
- web/lib/interaction.ts:17-22 promises that resending an unchanged draft dedups; a
  late answer that finds another submit's id pending spends that id
  (`Submission.OnceExactlyWhenApart`), and a retry can let one through
  (`Submission.RetryLetsAnswersOvertake`).
- The comment at src/web/server.ts:2203-2205 wants a settled question never replayed.
  The server does not replay it, but a resume does not repeat an end envelope that was
  lost with the connection either (`QuestionProtocol.EndLostStays`); the row stays
  exactly as `QuestionProtocol.StaleExactlyWhenLost` says.

## Model

| member | source | states |
|---|---|---|
| Events.FoldAppend | web/lib/project.ts:205-206 | Folding one batch and then another leaves what folding both at once leaves, for any step: with `Projector.Projector.Apply` this makes `apply(a)` then `apply(b)` the same as `apply(a + b)`. |
| Views.IsTurnRunning | web/lib/project.ts:586-593 | The clamped counter loop returns `TurnRunning` of the log. |
| Views.OpenIsMaxSurplus | web/lib/project.ts:586-593 | The clamped count is the largest surplus of starts over ends in any suffix of the log: it is reached by one suffix and exceeded by none. |
| Views.RunningIffUnmatchedStart | web/lib/project.ts:573-576 | A turn runs if and only if some suffix starts more turns than it ends. |
| Views.TaskPhase | web/lib/project.ts:565-584 | The loop over the queued set and the last outcome returns `PhaseOf` of the log. |
| Views.ProgressMeans | web/lib/project.ts:567-577 | An id is in the queued set if and only if it was accepted and neither shown nor settled since; the phase is the outcome of the last turn end, or idle before any. |
| Views.PhaseMeans | web/lib/project.ts:565-584 | The phase, for every log: running or waiting exactly while some suffix starts more turns than it ends; otherwise preparing while sending; otherwise, exactly when accepted input is outstanding, held after a cancelled or interrupted turn and preparing after any other; otherwise how the last turn ended. |
| Views.TodosFromEvents | web/lib/todos-view.ts:40-57 | The candidate map loop returns the folded todo list and its first in-progress item. |
| Views.TodosMean | web/lib/todos-view.ts:41-54 | A candidate is exactly the list of a TodoWrite call not repeated and not answered since; the shown list is the one adopted by the latest successful, non-recovery result that answers such a call, or none. |
| Views.ParseMeans | web/lib/todos-view.ts:25-37 | The items taken from a call are exactly its entries with a content, an active form and one of the three statuses, in order. |
| Views.TodosArgMeans | web/lib/todos-view.ts:47-48 | The list of a call is that of its first argument named `todos`, when it is a list, and empty otherwise. |
| Views.ProcessRows | web/lib/processes-view.ts:13-25 | The row map loop returns the folded process rows, in first-start order. |
| Views.ProcessesMean | web/lib/processes-view.ts:13-25 | A process has a row if and only if it was started, and the row reads exactly from its last start and the last exit after that: status, exit code and duration of the exit, or running when there is none. |
| Views.SubagentRows | web/lib/processes-view.ts:34-46 | The row map loop returns the folded subagent rows, in first-spawn order. |
| Views.SubagentsMean | web/lib/processes-view.ts:34-46 | A subagent has a row if and only if it was spawned, and the row reads exactly from its last spawn and the last result after that: definition, status and running mark. |
| Views.LookupPut | web/lib/processes-view.ts:17-21 | Setting a row changes what is found under its key and under no other. |
| Compaction.CompactClientEvents | web/hooks/useSessionStream.ts:37-63 | The two loops, with the finalized set and the map from step to output position, return `Compact` of the list. |
| Compaction.CompactIncremental | web/hooks/useSessionStream.ts:94 | Compacting the kept list with the new batch gives what compacting the whole log gives: `compact(compact(a) + b) = compact(a + b)`. |
| Compaction.CompactIdempotent | web/hooks/useSessionStream.ts:37-63 | Compacting twice changes nothing more. |
| Compaction.CompactKeepsMeaning | web/hooks/useSessionStream.ts:32-63 | Every event that is not a chunk or a raw body is kept in order, unfinished steps keep their chunks, each step keeps its whole reasoning text in at most one chunk, and the payloads it removes are gone. |
| Compaction.CompactOrdered | web/hooks/useSessionStream.ts:37-63 | The kept list is in strictly increasing sequence order and holds no number the log did not. |
| Compaction.CompactReads | web/hooks/useSessionStream.ts:37-63 | For every log the kept list is, event by event, the events that stay, in log order: every one but raw bodies, answer chunks of a step with a durable message, and the second and later reasoning chunks of a step; each is as it was, except that the first reasoning chunk of a step that thought on holds the step's whole text. |
| Compaction.BlindViewsUnchanged | web/hooks/useSessionStream.ts:37-63 | Any view that ignores chunks and raw bodies reads the same off the kept list, whatever the view. |
| Compaction.ViewsUnchanged | web/hooks/useSessionStream.ts:37-63 | Turn state, phase, todo list, process rows and subagent rows read the same off the kept list as off the log. |
| Compaction.RunAbsorbs | web/hooks/useSessionStream.ts:37-63 | Running the loop again with at least the same finalized steps absorbs the first run. |
| Compaction.RunRewrite | web/hooks/useSessionStream.ts:51-56 | Extending a step's chunk before or after a run of the loop gives the same list, at the same place. |
| Approvals.ReconcileApprovals | web/hooks/useSessionStream.ts:7-31 | The loop over the row map returns the fold of the events over the given rows; a request keeps what a live row knew. |
| Approvals.HeardStepMeans | web/hooks/useSessionStream.ts:10-28 | Whatever is heard, an event, an envelope, its settlement or a dismissal, adds the row it opens, takes away exactly the rows it ends, and keeps one row per question. |
| Approvals.RowsAreOpen | web/hooks/useSessionStream.ts:7-31 | For everything a page hears, in any order: a question has a row if and only if it was asked in the log or shown by an envelope and nothing since decided, answered, settled, dismissed or replaced it; one row per question. |
| Approvals.RowReads | web/hooks/useSessionStream.ts:10-28 | Whatever was heard, a question has a row exactly while something is told of it since its row last came up, and the row says that: the latest call, interactive if any envelope said so, and of every other fact the latest that was told. |
| Approvals.OpenMeans | web/hooks/useSessionStream.ts:132-152 | An open question is pending in the log or was shown and not ended since; one that no envelope or dismissal touched is open if and only if it is pending in the log. |
| Approvals.RequestAndEnvelopeRace | web/hooks/useSessionStream.ts:11-20 | The durable request and the live envelope of one question leave the same rows, fields and order included, whichever comes first, unless they disagree on the folder facts. |
| Approvals.RowsAreStillPending | web/hooks/useSessionStream.ts:7-31 | For every log: a question has a row if and only if it was asked and not asked again, decided, answered by its call's result or ended by its turn since; one row per question. |
| Projector.Row.constructor | web/lib/project.ts:190-194 | A row object holds the view item it was added with, and owns its own array of reasoning. |
| Projector.Row.Unqueue | web/lib/project.ts:239-242 | Field by field, the queued bubble becomes the bubble `Projection.Unqueued` says. |
| Projector.Row.Stream | web/lib/project.ts:306-312 | Reasoning is pushed on the row's own array, text on its content. |
| Projector.Row.Patch | web/lib/project.ts:479-489 | The conditional writes of a compaction end make the patched row. |
| Projector.RowList.Add | web/lib/project.ts:191-195 | A new row goes to the end, marked dirty. |
| Projector.RowList.Touch | web/lib/project.ts:187-190 | Marking a row changes no row. |
| Projector.RowList.Wrote | web/lib/project.ts:187-190 | A row that was marked before it was written leaves the list sound again, every unmarked row still equal to its copy; nothing lets a handler that forgot the mark claim this. |
| Projector.RowList.CopyDirty | web/lib/project.ts:543-548 | Dirty rows alone are copied, into new objects with a new reasoning array; the others stay the very objects handed out before. |
| Projector.RowList.Publish | web/lib/project.ts:542-551 | The array handed out shows all rows, shares every clean row object with the one before, and is that very array when nothing is dirty. |
| Projector.Projector.constructor | web/lib/project.ts:163-186 | A new projector stands for the empty log. |
| Projector.Projector.Apply | web/lib/project.ts:205-552 | Whatever was applied before: the handlers' in-place writes, each covered by a mark, followed by copying the dirty rows show exactly the fold of all events so far, and no array, row or reasoning array handed out by an earlier call has changed. The handlers it runs (`OnUserMessage` to `InterruptChildren`) are each proved against their case of the fold. |
| Projector.Projector.Step | web/lib/project.ts:206-541 | One pass of the event loop is one step of the fold, and touches nothing handed out. |
| Projector.Projector.TakeQueued | web/lib/project.ts:236-244 | The bubble of a queued input stops waiting at the same place, and loses its name. |
| Projector.Projector.InterruptChildren | web/lib/project.ts:532-534 | Every known running child is interrupted in place, and no other row changes. |
| Transcript.TranscriptTidy | web/lib/project.ts:163-541 | For every log the names and the rows agree: only the draft is live, only the open compaction runs, a queued id names its waiting bubble, call and child ids name their rows, and every open answer is listed under its turn. |
| Transcript.TranscriptStable | web/lib/project.ts:205-541 | For every log and every continuation, each row keeps its place, kind and identity, marks only move forward, and finished rows stay exactly as they are. |
| Transcript.TurnEndSettles | web/lib/project.ts:520-538 | After any turn end no turn is open, nothing streams, no answer of the turn it closes, the named one or the open one, is open, and no known child is running. |
| Transcript.RunningCompactionIsNewest | web/lib/project.ts:207-213 | A row shows a running compaction only if its start is the newest event of the log. |
| Rendering.AnswerStreams | web/lib/project.ts:294-313 | For every log a live answer exists exactly when something was streamed since the last answer or turn ended, and it reads exactly those deltas, text joined and reasoning in order. |
| Rendering.MessageStays | web/lib/project.ts:314-346 | A durable message with text is a finished answer with exactly that text, in the transcript of every continuation of the log. |
| Rendering.ToolRowsAreCalls | web/lib/project.ts:347-360 | The tool rows are the tool calls of the log, one row per call, in order. |
| Rendering.ResultLands | web/lib/project.ts:361-372 | A result lands on the latest row of its call id, with its outcome and output, and every other tool row is left as it was. |
| Rendering.StepTools | web/lib/project.ts:206-541 | One event adds at most one tool row, for a call that was made, and every call id stays named by its latest row. |
| Rendering.HandleQuiet | web/lib/project.ts:214-541 | Events that are about neither answers nor calls leave every answer's words, the draft and the tool rows as they are. |
| Rendering.TurnEndQuiet | web/lib/project.ts:520-538 | A turn end closes the draft and changes no words and no tool row. |
| Turns.OpenTurnKnown | web/lib/project.ts:215-221 | For every log the transcript's open turn is the last named turn started since the last turn end. |
| Turns.TurnInputsKnown | web/lib/project.ts:171-183 | For every log the turn holds the inputs claimed since its start by a shown message or by an accepted input that settled, each id once, in the order of their first claims and as they were accepted; besides them the messages without an id, in order; and that tools ran if and only if a call was recorded since. |
| Turns.RetryCarries | web/lib/project.ts:506-519 | The row of a failed turn offers a retry of exactly those inputs, or of the messages without an id when none was claimed; it offers none when there is nothing to send or the turn was rejected. |
| Turns.HandleTurn | web/lib/project.ts:206-541 | One event changes the open turn, the accepted inputs and the turn's inputs as its case says, and no other event touches them. |
| Rows.TranscriptIsRows | web/lib/project.ts:163-541 | For every log the transcript is exactly one row for each event that opens one, in log order, and each row reads, in every field, as its own event and the later events that spoke to it say: bubbles with content, time and attachments of their event; answers with their deltas or their message; tool rows with the results of their call; delegations with brief and the last known status since their spawn, or interrupted by a turn end; compactions with start and end, decisions and hooks in words, context rows with the latest manifest and the number of requests, and errors with what a retry sends. Which events open a row, and which speak to it, is said of the log alone. |
| Rows.BubbleReads | web/lib/project.ts:236-293 | The bubble of a queued input carries that event's content, time and attachments; it is queued, under its id, exactly while no event has shown or settled the input since, before another queued it again; and `notSent` is that settlement's outcome when it was rejected or empty. |
| Rows.NamesLocated | web/lib/project.ts:165-183 | For every log each of the projector's names points at the row the log says: the input that waits, the answer that streams, the latest call of an id, the newest row of a child, the turn's context row, the open compaction; and the approval map holds the last call each approval was asked for. |
| Rows.HandleRows | web/lib/project.ts:206-541 | Each event changes exactly the rows it speaks to, as the later log reads them, and adds the row it opens. |
| Rows.TurnRowShown | web/lib/project.ts:520-538 | A turn end stops the streaming answer, closes the answers of the turn it names or of the open one, interrupts each child's newest running row, and leaves every other row alone. |
| Rows.ToolTargetMeans | web/lib/format.ts:89-94 | A decision names the call's first argument that is a text and not empty. |
| Rows.McpServerMeans | web/lib/tool-facts.ts:62-67 | A tool row names an MCP server exactly when the call's name is `mcp__`, a server's name that is not empty, and the first double underscore after it. |
| SessionStream.Stream.constructor | web/hooks/useSessionStream.ts:76-87 | A freshly opened session has seen nothing. |
| SessionStream.Stream.OnSnapshot | web/hooks/useSessionStream.ts:103-109 | The handler drops the pending batch, rebuilds the projector, both lists and the question rows, and moves the position to the snapshot's end. |
| SessionStream.Stream.OnResume | web/hooks/useSessionStream.ts:110-117 | Only events past the position are queued, in order, and folded into the question rows; a frame is scheduled when something is pending. |
| SessionStream.Stream.OnLive | web/hooks/useSessionStream.ts:118-129 | An event at or below the position is dropped; any other is queued, reconciled with the question rows if it can touch them, and a frame scheduled. |
| SessionStream.FilterUnseen | web/hooks/useSessionStream.ts:111 | Filtering by position returns `Unseen` of the events. |
| SessionStream.Stream.OnFrame | web/hooks/useSessionStream.ts:88-95 | The batch is folded into the projector and the kept list, nothing stays pending, and the arrays shown before stay as they are. |
| SessionStream.Stream.OnNotice | web/hooks/useSessionStream.ts:130-153 | An envelope adds a question's row or writes over it, its settlement removes the row, an error changes no row. |
| SessionStream.Stream.DismissApproval | web/hooks/useSessionStream.ts:72-74 | The reader's own answer removes the row. |
| StreamProtocol.StreamInvariant | web/hooks/useSessionStream.ts:85-153 | In every run of appends, questions asked, settled and dismissed, connects, drops, deliveries, repeated frames and animation frames: applied events followed by the pending batch are exactly the log up to the last event seen, rows and kept list are those of the applied prefix, the question rows those of everything heard, of the log exactly the seen part was heard, and the frames in flight lead on to the end of the log. |
| StreamProtocol.NextKeeps | web/hooks/useSessionStream.ts:101-153 | Each single step, envelopes and dismissals included, keeps that invariant, extends the log only at its end and never shrinks what is on screen. |
| StreamProtocol.HelloLeadsToEnd | src/web/server.ts:6475-6481 | Whatever id a browser presents, the opening frame takes it from its position to the end of the log without a gap. |
| StreamProtocol.AppendKeeps | src/web/server.ts:6488-6490 | An append with its live frame keeps the invariant. |
| StreamProtocol.DeliverKeeps | web/hooks/useSessionStream.ts:101-153 | Delivering any frame in flight, envelopes included, keeps the invariant. |
| StreamProtocol.RedeliverKeeps | web/hooks/useSessionStream.ts:120 | A repeated frame keeps the invariant. |
| StreamProtocol.AnimateKeeps | web/hooks/useSessionStream.ts:88-95 | A flush keeps the invariant. |
| StreamProtocol.FlushRenders | web/hooks/useSessionStream.ts:93-94 | Folding the batch in and compacting again is projecting and compacting the longer log. |
| StreamProtocol.UnseenSlice | web/hooks/useSessionStream.ts:111 | Of any stretch of the log, filtering by position leaves exactly the part past it. |
| StreamProtocol.FlushedShowsPrefix | web/hooks/useSessionStream.ts:88-109 | In every run, with nothing pending, rows and kept list are those of the log prefix seen so far. |
| StreamProtocol.CaughtUpShowsLog | web/hooks/useSessionStream.ts:88-109 | A connected client with nothing in flight or scheduled shows the whole log, and turn state, phase, todos and both row tables read off its kept list are those of the log. |
| StreamProtocol.CatchesUp | src/web/server.ts:6475-6486 | From every reachable state a new connection, delivery of what it carries and one animation frame get there: nothing in flight or scheduled, and the whole log on screen. |
| StreamProtocol.ReconnectSendsTheRest | src/web/server.ts:6475-6481 | In every run a browser that comes back with an event's number is sent exactly what came after that event; one without a number, or with none the log can place, is sent the whole log. |
| StreamProtocol.TranscriptNeverGoesBack | web/hooks/useSessionStream.ts:88-109 | No step of any run, reconnects and rebuilt projectors included, takes a row on screen back. |
| QuestionProtocol.QuestionsAreOpen | web/hooks/useSessionStream.ts:108-153 | In every run the rows are exactly the open questions, one row each: asked in the part of the log seen so far or shown by an envelope, and not decided, answered, settled, dismissed, replaced or cleared by a snapshot since. |
| QuestionProtocol.QuestionsArePending | web/hooks/useSessionStream.ts:7-31 | In every run a row is pending in the log seen so far or was shown and not ended since; a question that no envelope or dismissal touched has a row if and only if it is pending in the log seen so far. |
| QuestionProtocol.WaitingIsShown | src/web/server.ts:6482-6502 | However the connection was cut: once nothing is in flight, every question the server waits for, of the session or its children, is on screen, unless after it was last shown the reader dismissed it or the log ended it or asked it anew. |
| QuestionProtocol.ShownIsWaiting | src/web/server.ts:2202-2212 | At every moment a row on screen is pending in the log seen so far, or the server waits for it, or its end envelope is owed, on its way, or was lost with a connection. |
| QuestionProtocol.StaleExactlyWhenLost | src/web/server.ts:6475-6486 | With nothing in flight or owed, a row that is neither pending nor waited for is on screen if and only if its end envelope was lost with a connection and the page has heard nothing since that ended it. |
| QuestionProtocol.NoStaleRowUnbroken | src/web/server.ts:2202-2212 | On a connection that never broke, with nothing in flight or owed, every row is pending in the log seen so far or waited for by the server. |
| QuestionProtocol.EndLostStays | src/web/server.ts:6475-6486 | A concrete run: a question is shown, its end is sent and lost with the connection, and the resumed page still shows it. |
| QuestionProtocol.ServedInvariant | src/web/server.ts:6482-6520 | In every run each question waits, owes its end or has ended; once the frames in flight are in, the page has been told every waiting question as it waits; and whatever it was told waits, owes its end, is about to be ended, or had its end lost with a connection. |
| QuestionProtocol.ServedKeeps | src/web/server.ts:6482-6520 | Each single step of server, network and page keeps that invariant. |
| QuestionProtocol.ShowsTell | src/web/server.ts:6482-6486 | The frames a connection opens with tell every waiting question, whatever the page was told before. |
| Defaults.BodyKeepsIff | web/App.tsx:1151-1155 | The record a menu sends keeps the fields it does not edit if and only if a record was known or those fields were blank. |
| Defaults.ModelDefaultsCoordinator.constructor | web/App.tsx:173-185 | The coordinator starts loading, with nothing confirmed and nothing pending. |
| Defaults.ModelDefaultsCoordinator.Refresh | web/App.tsx:191-194 | A read gets a fresh request number under the current epoch, and the state is loading. |
| Defaults.ModelDefaultsCoordinator.OnRead | web/App.tsx:195-205 | A reply is accepted if and only if it is the newest request and no write was queued or settled since. |
| Defaults.ModelDefaultsCoordinator.Enqueue | web/App.tsx:208-211 | Queueing a write fences every read under way. |
| Defaults.ModelDefaultsCoordinator.OnWritten | web/App.tsx:215-227 | A settled write fences every read again and confirms its record, or reports the failure and keeps the confirmed one. |
| Defaults.ModelDefaultsCoordinator.Finally | web/App.tsx:229-232 | One pending write less. |
| Defaults.CoordinatorInvariant | web/App.tsx:173-239 | In every interleaving: once the menus are there a record is confirmed, and it equals the server's or a committed write's reply is under way; a ready state equals the confirmed record; a loading state has its newest read under way and unfenced, or a write unsettled; pending counts exactly the unfinished writes; the server holds the accepted edits, merged in the order they were made. |
| Defaults.NextKeeps | web/App.tsx:191-232 | Each single step keeps that invariant. |
| Defaults.WritesStartFromServer | web/App.tsx:212-214 | In every run a write that leaves the queue sends the server's current record with its own edit. |
| Defaults.EditsNeverLost | web/App.tsx:1150-1155 | In every run the server holds every edit it accepted, merged in the order they were made, and has decided all edits made but the one under way and the queue. |
| Defaults.ReadsAreFenced | web/App.tsx:167-172 | A read under way when a write is queued or settles is never accepted, in any continuation: neither its reply nor its failure changes the coordinator. |
| Defaults.SettledShowsServer | web/App.tsx:191-239 | After the first refresh, with nothing under way, the state is not loading and a shown record is the server's. |
| Defaults.RepliesAccepted | web/App.tsx:191-205 | In every run a reply to the newest read, with no write queued or settled since it was sent, leaves the state ready with that answer, now the confirmed record; its failure leaves an error and keeps the confirmed record; any other reply changes nothing. |
| Defaults.WritesPublish | web/App.tsx:215-227 | In every run the reply of a committed write leaves the state ready with the server's record, now confirmed; that of a rejected one leaves an error with the confirmed record kept. |
| Defaults.RefreshShows | web/App.tsx:191-205 | From every state with nothing under way, a refresh, its answer, its reply and a render end with the menus shown and ready with the server's record. |
| Defaults.EditGoesThrough | web/App.tsx:1308-1322 | From every state with the menus up, the server's record confirmed and nothing under way, an edit the server accepts is stored, shown and done. |
| Defaults.LastEditCounts | web/App.tsx:1150-1155 | Where the server stores records as they are, the last model choice gives the pair, the last thinking choice the level, and what was never chosen is the first record's. |
| SerialQueue.TasksRunInTurn | src/web/server.ts:848-862 | In every run of tasks chained on a tail promise, with settled tails forgotten at any time: at most one runs, each starts only when all earlier ones have settled, and while any is unsettled some task runs or may start. |
| SerialQueue.BeginInLine | src/web/server.ts:2241-2244 | The only task that can begin is the first unsettled one, and nothing is running when it does. |
| SerialQueue.InLineMeans | web/App.tsx:131-149 | The chain through predecessors alone implies arrival order and exclusion. |
| SerialQueue.ForgetInLine | src/web/server.ts:858-860 | Forgetting a settled tail keeps the order. |
| Grants.MergeGrants | src/web/folder-grants.ts:93-103 | The nested loops return the merged list of all lists in order. |
| Grants.MergeMeans | src/web/folder-grants.ts:92-103 | The merged list has one entry per folder and grants exactly what the lists grant together, write winning. |
| Grants.MergeKeepsFirsts | src/web/folder-grants.ts:93-103 | Its paths are the first spelling of each folder, in the order the folders first appear. |
| Grants.EveryListFollows | src/web/server.ts:843-863 | In every interleaving, each recorded list raises the revision by one; the recorded requests are the accepted ones in the order they arrived; an edit is recorded only over the list with its expected revision and grants exactly what it asked; an approval grants what was granted before plus its folder. |
| Grants.NextKeeps | src/web/server.ts:849-856 | Each step keeps that: what a task read when it began is still current when it records. |
| Grants.RevisionCounts | src/web/server.ts:853 | The current revision is the starting one plus the number of recorded lists, so a revision names one list. |
| Grants.GrantedIff | src/web/server.ts:2124-2137 | After any recorded history a folder is granted at an access if and only if the starting list, an edit or an approval gave it and no edit since dropped it. |
| Grants.ApprovedStays | src/web/server.ts:2132 | In every run an approved folder is still granted at its access after any further approvals and edits, until an edit asks for a list that does not cover it. |
| Grants.RecordsExactly | src/web/server.ts:849-856 | In every run a task that ends records its request exactly when that is an approval, or an edit with valid folders based on the revision as it then is; recorded lists stay. |
| Grants.SomeRequestMoves | src/web/server.ts:849-856 | In every run, while a request is unsettled one is running, or one may start and then runs. |
| Providers.PreferredDefaults | src/web/provider-store.ts:48-55 | The loop returns the first enabled provider's first model, or the blank pair. |
| Providers.RepairGlobalDefaults | src/web/server.ts:646-664 | The branches over injected and configured providers return `RepairGlobal`. |
| Providers.RepairGlobalMeans | src/web/server.ts:646-664 | The repaired selection is blank if and only if nobody advertises any model; otherwise somebody who may be asked advertises it and the thinking level is kept. |
| Providers.RepairGlobalIdempotent | src/web/provider-store.ts:58-64 | Repairing twice changes nothing more, even when two providers share an id. |
| Providers.RepairGlobalExactly | src/web/server.ts:646-664 | Which selection a repair leaves, by position: the candidate if the first injected provider of its name advertises it; otherwise, when some injected provider has a model, the first model of the first one that does; otherwise the candidate if the first provider of its id is enabled and advertises it, else the first model of the first enabled provider with one, else blank. |
| Providers.CommitExactly | src/web/server.ts:2247-2266 | What a commit leaves: the derived list, its repaired defaults, the startup override exactly when it was not cleared and the provider of its id, or with none of that id an injected one, still advertises it, and as live default the override's pair at the durable level, or the durable one. |
| Providers.SettlesOnTheHost | src/web/server.ts:2236-2272 | In every run a transaction that ends is committed exactly when it derived a store and the store was saved. |
| Providers.SomeTransactionMoves | src/web/server.ts:2236-2272 | In every run, while a transaction is unsettled one is running, or one may start and then runs. |
| Providers.ProviderRegistry.constructor | src/web/server.ts:586-590 | The host starts from the stored list with repaired defaults and no override. |
| Providers.ProviderRegistry.Publish | src/web/server.ts:2246-2268 | A saved transaction publishes list, durable defaults, override and live default together; an unsaved one changes nothing. |
| Providers.CommitSettles | src/web/server.ts:2247-2266 | After any commit memory equals what was written, the durable defaults are repaired, and the live default is blank or advertised. |
| Providers.TransactionsAreSerial | src/web/server.ts:2236-2272 | In every interleaving transactions settle in the order they arrived, the host is where the committed ones alone, one after the other in that order, would have put it, and is settled from the first commit on. |
| Providers.NextKeeps | src/web/server.ts:2236-2272 | Each step keeps that: what a transaction derived from is still current when it commits. |
| Providers.FreshId | src/web/server.ts:6099-6100 | The bump loop ends, by pigeonhole, on an id nobody has: the base if it is free, else the first free bumped name, within one bump per provider. |
| Providers.DigitsInjective | src/web/server.ts:6100 | Two different bump numbers never print alike. |
| Providers.Pigeonhole | src/web/server.ts:6100 | While every name tried is taken, fewer bumps were made than there are providers. |
| Submission.ComposerStore.constructor | web/lib/composer-store.ts:27-29 | Only the drafts come back from storage. |
| Submission.ComposerStore.Update | web/lib/composer-store.ts:39-48 | One scope changes, by the given function of its current state; every other scope is untouched. |
| Submission.ComposerStore.SetDraft | web/lib/composer-store.ts:51-52 | A new draft advances that scope's revision. |
| Submission.ComposerStore.Migrate | web/App.tsx:989-994 | The source scope's latest state moves to the target, marked sending, and the source is gone. |
| Submission.SubmissionInvariant | web/App.tsx:937-1063 | In every run in which each landing answer spends its own id, retries of failed turns included, the invariant behind the next rows holds. |
| Submission.NextKeeps | web/App.tsx:960-1063 | Each single step keeps that invariant. |
| Submission.OneIdOneMessage | web/lib/interaction.ts:30-40 | In every such run a request id never names two messages, on the network or in the log, and is queued at most once. |
| Submission.EachRevisionOnce | src/web/server.ts:5641-5681 | In every such run each draft revision adds at most one input to the session, and it is that revision's message. |
| Submission.ClearedOnlyWhenLogged | web/lib/interaction.ts:25-29 | In every such run a draft is cleared only when its message is in the log, or it was a command the page runs itself. |
| Submission.ResendAddsNothing | src/web/server.ts:5648-5657 | In every such run, sending again a message that already landed leaves the log as it is, whatever the server's verdict. |
| Submission.ProcessAnswers | src/web/server.ts:5641-5681 | Processing a request adds exactly one reply for that attempt: a refusal when it is refused; otherwise, accepted as a duplicate with the log unchanged if an entry of its id was in the log, and if not, its message is appended and accepted as new, unless the answer fails after that. |
| Submission.SubmitEnds | web/App.tsx:1001-1019 | The end of a submit: an acceptance of the draft as sent clears it, a refusal or a lost reply keeps it with `failed` up, and none leaves the composer sending. |
| Submission.SendDelivers | web/App.tsx:960-1019 | From every reachable state in which the draft on screen can be sent, sending, processing without refusal and the answer end with an empty draft, not sending and not failed, and its words are in the log once, whether they had landed before or not. |
| Submission.OpeningDelivers | web/App.tsx:981-1012 | The first message of a new session likewise, with its scope moved to the session. |
| Submission.BuiltinEnds | web/App.tsx:944-959 | A command the page runs itself sends nothing, and its end empties the composer unless the reader wrote on meanwhile. |
| Submission.RetryShows | web/App.tsx:1037-1063 | A retry shows itself as sending while it lasts, cannot be started twice, keeps the draft, and ends with an error exactly if it failed. |
| Submission.ProcessKeeps | src/web/server.ts:5641-5681 | Refusal, duplicate, acceptance and an append answered with an error all keep the invariant. |
| Submission.AnsweredKeeps | web/App.tsx:1001-1012 | Acceptance that spends its own id, refusal and a failed steer after a duplicate keep the invariant. |
| Submission.CalmRunsAreApart | web/components/composer/Composer.tsx:374-380 | In every run in which no retry starts over an unanswered submit, so in every run without retries, the guard and the rendered sending flag keep submits apart: each landing answer spends its own id. |
| Submission.RetryFreeIsCalm | web/App.tsx:1037-1041 | A run without retries starts none over an unanswered submit. |
| Submission.OnceExactlyWhenApart | web/lib/interaction.ts:25-29 | After any such run, one more answer is safe if and only if it finds pending its own id, none, or one of a revision that is gone: otherwise, and only then, some continuation in which every further answer behaves queues one revision twice. |
| Submission.SpentQueuesTwice | web/lib/interaction.ts:36-40 | A draft whose pending id was spent while its request is on the network can be queued twice. |
| Submission.RetryLetsAnswersOvertake | web/App.tsx:1037-1063 | A concrete run reaches such an answer: a first message whose reply is late, its failed turn retried, and a second message sent once the retry has lowered the flag. |
| Submission.SingleKeeps | web/App.tsx:991 | While submits are unanswered the composer is sending, and a submit without its guard is shown as sending; so there is one at a time. |
| Registry.Kernel.constructor | src/kernel/registry.ts:86-89 | An empty kernel has nobody waiting. |
| Registry.Kernel.Start | src/kernel/registry.ts:124-154 | A plugin with something missing is left as it was, and nothing runs; one with nothing missing runs its body once, all its actions in order unless one throws: then it has failed, is removed and the throw passed on; otherwise it is active and the wake after it runs. A normal return leaves nobody waiting needlessly. |
| Registry.Kernel.Activated | src/kernel/registry.ts:156-159 | The plugin is active before the wake begins, and the wake runs for the services as its body left them. |
| Registry.Kernel.FlushPending | src/kernel/registry.ts:162-170 | A normal return leaves no mounted plugin pending with all its needs in the store, through any nesting of wakes and second starts, and touches no plugin that had left pending. Of those waiting when it began, each is run at most once and in mount order, none is passed over whose needs were met, and what it throws was thrown by the last thing that ran. |
| Registry.Kernel.Provide | src/kernel/store.ts:33-39 | A duplicate name throws and changes nothing; otherwise the service is in the store, and a normal return leaves nobody waiting needlessly. |
| Registry.Kernel.Enter | src/kernel/registry.ts:102-108 | A mounted plugin is active on a normal return when its needs were met, and otherwise only added to the waiting; completeness is kept. |
| Registry.Kernel.RunBody | src/kernel/registry.ts:131-138 | A body that returns normally has carried out its script: services provided, plugins entered, the right branch taken, each action once and in order; one that throws has run them up to the one that threw. |
| Registry.Kernel.RunAction | src/kernel/registry.ts:131-138 | What each action sets off: a free name is provided and wakes, a taken one throws; a mount starts the plugin if its needs are met; a caught part never throws on; a test runs the branch the store says. Whatever is thrown was thrown by the last thing that ran, and services and plugins are the old ones and those the run provided and mounted, in order. |
| Registry.Kernel.SetService | src/kernel/store.ts:33-39 | Providing from outside: the service is in the store and a normal return leaves nobody waiting needlessly. |
| Registry.Kernel.MountPlugin | src/kernel/registry.ts:102-108 | Mounting from outside, in any kernel state. |
| Registry.StartAllowed | src/kernel/registry.ts:162-165 | Starting an entry of a snapshot is below the flush in the termination measure, even when a nested wake has run it already. |
| Registry.FlushAllowed | src/kernel/registry.ts:156-159 | The flush after a body is below that plugin's start in the termination measure. |
| Registry.MeasureFalls | src/kernel/registry.ts:156-170 | The measure never rises: either a new service was provided, or nobody new is waiting needlessly. |
| Registry.NoneStuck | src/kernel/registry.ts:168-170 | A snapshot whose entries all miss something, in an unchanged store, leaves nobody waiting needlessly. |
| Registry.CarriedStays | src/kernel/registry.ts:156-159 | What a body carried out stays so as services and fibers are added. |
| Pairing.ControlPlaneAuthService.constructor | src/web/control-plane-auth.ts:67-81 | Nothing is issued and the generation is one. |
| Pairing.ControlPlaneAuthService.IssuePairingCode | src/web/control-plane-auth.ts:105-110 | A new code replaces any earlier one for five minutes. |
| Pairing.ControlPlaneAuthService.RedeemPairingCode | src/web/control-plane-auth.ts:140-161 | Locked, rejected and opened are decided as documented, with the failure count, the lock, the generation and the new session that go with each. |
| Pairing.ControlPlaneAuthService.RevokeBrowserSession | src/web/control-plane-auth.ts:171-174 | An existing session is deleted and the generation passes; an unknown one changes nothing. |
| Pairing.ControlPlaneAuthService.LogoutAll | src/web/control-plane-auth.ts:177-180 | No session is left and the generation passes. |
| Pairing.ControlPlaneAuthService.IssueBearer | src/web/control-plane-auth.ts:182-187 | A bearer is stored, not revoked. |
| Pairing.ControlPlaneAuthService.RevokeBearer | src/web/control-plane-auth.ts:189-194 | A known bearer is revoked and the generation passes. |
| Pairing.ControlPlaneAuthService.AuthenticateCookie | src/web/control-plane-auth.ts:234-262 | A cookie is accepted if and only if its session exists, has not expired, has the current generation and the request is trusted; only then is it prolonged. |
| Pairing.CodesOpenOnce | src/web/control-plane-auth.ts:105-161 | In every run only issued codes open sessions, each at most one. |
| Pairing.OneLiveSession | src/web/control-plane-auth.ts:155-160 | In every run at most one browser session is accepted at any moment. |
| Pairing.OnceDeadAlwaysDead | src/web/control-plane-auth.ts:234-243 | A session that is not accepted now, whether revoked, logged out, superseded or expired, is never accepted again, whatever follows. |
| Pairing.EndsAllSessions | src/web/control-plane-auth.ts:155-194 | Logout, a successful pairing, revoking an existing session and revoking a bearer each end every session there was. |
| Pairing.RevokedBearerStaysRevoked | src/web/control-plane-auth.ts:189-227 | A revoked bearer is never accepted again. |
| Pairing.LocksCount | src/web/control-plane-auth.ts:140-154 | Between openings, failures so far are eight per lock plus the current count, and each lock ends a minute later than the one before. |
| Pairing.GuessesAreBounded | src/web/control-plane-auth.ts:20-23 | From any reachable state, a span of T ms with no successful pairing sees at most 8 * (T / 60000 + 1) codes evaluated and rejected. |
| Pairing.RedeemedExactly | src/web/control-plane-auth.ts:140-161 | In every run a redemption opens a session if and only if no lock is in force, the code is the one last issued, nothing has opened since and it was issued less than 300000 ms before; a lock is in force exactly when the last eighth rejection in a row since an opening or a lock lies less than 60000 ms back. |
| Pairing.CookieAcceptedExactly | src/web/control-plane-auth.ts:234-262 | In every run a cookie is accepted if and only if the request is trusted, its session was opened, nothing has ended it since, and it was opened or last accepted less than 43200000 ms before. |
| Pairing.BearerAcceptedExactly | src/web/control-plane-auth.ts:213-227 | In every run a bearer is accepted if and only if it was issued with that secret and not revoked since. |
| Terminals.LiveTerminal.constructor | src/web/terminals.ts:363-372 | A new terminal has sent and holds nothing. |
| Terminals.LiveTerminal.OnData | src/web/terminals.ts:235-254 | A chunk is appended up to the ceiling and the cut marked; a closed terminal ignores it. |
| Terminals.LiveTerminal.Flush | src/web/terminals.ts:219-233 | The window is sent with its mark and joins the bounded scrollback; an empty window sends nothing. |
| Terminals.LiveTerminal.Close | src/web/terminals.ts:256-266 | The first close sends what is held and then the exit; a second one does nothing. |
| Terminals.TerminalsSound | src/web/terminals.ts:219-266 | In every run, for every terminal ever created: scrollback is exactly the last `scrollbackChars` characters sent; what is held is the head of the window within the ceiling and flooded if and only if something was cut; nothing held is without a flush to come; one exit, last; and no workspace has more open than its cap. |
| Terminals.ExitIsFinal | src/web/terminals.ts:235-240 | Whatever a closed shell still prints, nothing is sent after its exit. |
| Terminals.LateSubscriber | src/web/server.ts:6381-6391 | Scrollback at the time of joining followed by all later data is one unbroken suffix of the whole output. |
| Terminals.OutputIsInput | src/web/terminals.ts:219-254 | In every run, for every terminal: what subscribers were sent is what its shell printed while it was open, window by window, each whole or cut at a million characters with the mark; what is not sent yet is the open window, and a closed terminal holds none. |
| Terminals.ExitSaysWhy | src/web/terminals.ts:256-266 | The exit names what ended the terminal, whatever comes after it. |
| Terminals.ListedCloses | src/web/terminals.ts:256-266 | In every run an exit, a kill or the reaper closes a listed terminal, and it is listed no more. |
| Terminals.NextKeeps | src/web/terminals.ts:219-266 | Each single step keeps the run invariant. |
| Terminals.CreateKeeps | src/web/terminals.ts:322-325 | Creating checks the cap and keeps it. |
| Terminals.LastOfLast | src/web/terminals.ts:228-231 | Trimming after each append is trimming the whole. |
| Chips.ParseMessageText | web/lib/inline-chips.ts:69-97 | The command prefix and then the mentions after it. |
| Chips.ParseMentions | web/lib/inline-chips.ts:78-96 | The loop over matches, with its cursor and pushes, returns the parsed segments. |
| Chips.PrintParsed | web/lib/inline-chips.ts:11-13 | For every string, printing the parsed message gives the string back. |
| Chips.ParsePrinted | web/lib/inline-chips.ts:45-97 | For every draft with a command only in front, texts merged, starting no word with `@` and not reading as a command, and mentions with quotable paths set off by white space: parsing the printed draft gives back its segments. |
| Chips.BodyParses | web/lib/inline-chips.ts:79-96 | From any boundary of a printed draft, parsing gives the segments printed from there. |
| Chips.WireIsMatched | web/lib/inline-chips.ts:45-49 | A chip's wire text, followed by white space or the end, is matched whole and read as that chip. |
| Chips.CommandPrefixIff | web/lib/inline-chips.ts:19-21 | A message has a command prefix if and only if it begins with the wire text of a valid skill name. |
| Chips.FindMatchIsLeftmost | web/lib/inline-chips.ts:22-23 | The search gives the leftmost match at or after its start, and none only when none begins there. |
| Chips.NormalizeDraft | web/lib/composer-draft.ts:39-52 | The merging loop returns `Normalized` of the segments. |
| Chips.NormalizedMeans | web/lib/composer-draft.ts:38-52 | No empty text and no two texts side by side; the message is unchanged; a normal draft is left as it is. |
| Chips.ReusedDraftSaysTheSame | web/lib/composer-draft.ts:33-36 | A sent message reused as a draft says exactly what was sent. |
| Chips.DraftAttachments | web/lib/composer-draft.ts:60-70 | The loop with its seen set returns `FirstSeen` of the attachments. |
| Chips.FirstSeenMeans | web/lib/composer-draft.ts:59-70 | One entry per id, and it is the first given with that id. |
| FileSearch.Walk | src/web/project-files.ts:134-159 | The queue walk visits at most 20000 entries, is cut if and only if the walked tree holds more, finds only eligible files, and finds every one of them when not cut. |
| FileSearch.VisitFolder | src/web/project-files.ts:139-158 | One folder: entries are counted, hits kept and walked folders queued, and nothing eligible is lost. |
| FileSearch.Visit | src/web/project-files.ts:145-156 | One entry: links, hidden names and `node_modules` are passed over, folders queued, matching files kept. |
| FileSearch.SearchProjectFiles | src/web/project-files.ts:118-162 | The answer is the first `capped` of a ranking of what was found by score, then path length, then locale order; not cut, that is a ranking of all eligible files. |
| FileSearch.SortSorts | src/web/project-files.ts:111-116 | Sorting ranks and permutes. |
| FileSearch.RankingUnique | src/web/project-files.ts:111-116 | When no two different files tie there is only one such ranking. |
| FileSearch.EligibleMeans | src/web/project-files.ts:104-109 | For every tree and query a file is eligible if and only if a route of visible names, through no `node_modules`, leads to it and the query is empty or occurs in its folded name or path; its score says which. |
| FileSearch.RankingReads | src/web/project-files.ts:111-116 | In a ranking, files whose name starts with the query come before those whose name holds it, and those before files matched by path alone; among files that match alike the shorter path comes first, then the locale order. |
| InheritedContext.ProjectInheritedMessages | src/web/agent-delegation.ts:33-55 | The backward loop, joined, is `Project` of the log. |
| InheritedContext.ProjectionMeans | src/web/agent-delegation.ts:26-55 | The text is the newest eligible messages in chronological order, all whole except possibly the oldest, which keeps its label, the mark and a true suffix; no older one would have fitted; its length is the counted one, and it exceeds the budget if and only if for some number of newest messages their length, separators, the next label and the mark come to exactly the budget and that next message is longer. |
| InheritedContext.TruncateMeans | src/web/agent-delegation.ts:58-64 | A line is kept whole, or abridged to exactly the room, or to room plus the whole line when the room is the bare mark, or dropped when not even the mark fits. |
| InheritedContext.ScanFits | src/web/agent-delegation.ts:36-53 | The count stays within the budget if and only if no number of newest lines leaves exactly the bare mark of a longer next one. |
| InheritedContext.LabelKnown | src/web/agent-delegation.ts:39-42 | The label ends at 4 or 9, so the bare mark has 18 or 23 characters. |
| InheritedContext.LinesAreSpoken | src/web/agent-delegation.ts:36-43 | For every log the lines are exactly what its messages say, one each, in order: `User: ` or `Assistant: ` and the content without the blanks around it; a blank message says none, nor does an answer that calls tools. |
| InheritedContext.TrimMeans | src/web/agent-delegation.ts:39-42 | Trimming leaves the one part between blanks that neither starts nor ends with one. |
| InheritedContext.JoinSnoc | src/web/agent-delegation.ts:54 | The kept lines are set apart by one empty line. |
| InheritedContext.BareMarkOverruns | src/web/agent-delegation.ts:62-63 | At the budget both callers use, 12000: a newest user message of 11974 characters leaves exactly the bare mark, and any older one of more than 12 comes whole behind it, past the budget: `slice(-0)`. |

## Left out

- Projection: rows are named by their position instead of by reference, so the
  `WeakMap` from row to index is the identity; an absent boolean reads as false.
- Projector.RowList.Publish: that a row whose fields were rewritten to the same
  values keeps its identity is not claimed; `shareProjectedItems` is not part of this model.
- Projector.Projector.AddIf: approval and hook rows keep the fields the transcript prints.
- "The projected items are the same for the compacted list": false of the code
  (regrouped reasoning, dropped chunks of an empty final message, raw bodies that
  interrupt an open compaction), so it is not claimed.
- SessionStream.Stream.OnFrame: React scheduling, the `disposed` flag, connection
  states, the text of error envelopes and `EventSource` internals.
- StreamProtocol.HelloLeadsToEnd: the refusal when the login generation moved, and
  cursors above the safe integer range.
- Defaults.CoordinatorInvariant: a write that committed but whose reply was lost
  (see the assumption above), and writes by other clients.
- Submission.SubmissionInvariant: page reload, and durable-write failure seen as more
  than an error reply. A retry's inputs and ids are given; that it sends them one
  after the other is left open.
- Registry.Kernel.Start: bodies are finite scripts (they may test for a service,
  catch, mount and provide); async bodies, removals, `restartEntry`, disposal and
  effects are not modelled.
- "A body runs once": the code starts a snapshot entry again after a nested wake has
  run it, and so does the model; one wake runs an entry at most once (`Registry.Woke`),
  and no body begins too early.
- Grants.EveryListFollows: validation of a folder is an outcome, and a failed durable
  write after the append is not modelled; `projectGrants` and path containment are left out.
- Providers.TransactionsAreSerial: the provider registry of the kernel
  (`syncRegistrations`), file formats and the operations that derive a new store;
  they are arbitrary functions here.
- Providers.FreshId: `slugify`, which makes the base name.
- Pairing.ControlPlaneAuthService.AuthenticateCookie: headers, origin and CSRF
  comparison are one condition, `trusted`; the operator key, and opening a session
  without a code (which only tests do).
- Terminals.TerminalsSound: spawning, resizing, probing, idle times and the frames a
  slow reader loses.
- Chips.FindMatch: characters are Unicode scalars, not UTF-16 units.
- FileSearch.Walk: path resolution under the root and the reading of folders; the
  tree does not change during the walk.
- The rest of the repository: rendering, REST wrappers, routing, the PWA, file system,
  process, git and crypto calls, MCP, hooks, OAuth, agents and the executor.
