# A verified model of the libtmux C++ runtime

The project models the parts of the runtime that keep state under concurrency or transform bytes, and
proves what they are for. Every mutex section, pipe write and atomic store is one step of a state machine
and any thread may take the next step, so the theorems about runs hold for all interleavings. System calls
appear only through their outcomes, as arguments of a step: a write accepts any positive number of bytes or
fails, a child ends at any time, a deadline passes at any time.

| file | what it holds |
|---|---|
| `ControlParser.dfy` | the incremental control-mode parser, against a byte-wise and a line-wise reading |
| `CompletionQueue.dfy` | the intrusive ready list in a record map, against a FIFO of generations |
| `OperationProtocol.dfy` | publish, retire, subscribe and dispatch racing on one operation; admission release |
| `CompletionRace.dfy` | the same race run together with the real queue and its other users |
| `NotificationStream.dfy` | one bounded log shared by independent cursors |
| `Boundary.dfy`, `Connection.dfy` | private boundary lines; the request/reply protocol over the client's pipe |
| `Delivery.dfy`, `Attribution.dfy` | what the pipe holds and what a status says; who gets which reply |
| `ConnectionState.dfy` | the connection's critical sections as methods on its fields |
| `ProcessEngine.dfy`, `CommandEngine.dfy`, `RuntimeLedger.dfy` | launch lane and reactor, ticket gate, lease ledger |
| `SavedLayout.dfy`, `JsonLayout.dfy`, `JsonPrinting.dfy`, `Layout.dfy` | both saved-layout readers and the verdict on a layout argument |
| `Utf.dfy`, `WindowsCommandLine.dfy`, `ProcessValidation.dfy` | encodings, quoting and the predicted command-line size |
| `ArgumentTransport.dfy` | how arguments survive the subprocess and the control channel |
| `Prelude.dfy` | shared result types, counting and octal escapes |

Where the source changes fields in place the model has a class whose methods are proved to compute a function
of the old field values (`View()`); the theorems are about that function. Bytes of the control channel and of
layouts are `char`s, and the theorems that need it say that they are below 256.

Three findings about the code:

* **A byte can be sent and reported as not sent.** In `write_without_sigpipe` (src/connection.cpp:479-509) a
  failure to restore the signal mask is returned as a failed write even after the write accepted bytes. The
  writer then neither counts them nor marks the frame partial, and the request is reported `not_started`, which
  the relaunch fallback takes as permission to send it again. `NotStartedIsSafeToResend` shows that this is safe
  exactly when no mask restore failed after one of the request's own writes. When the unreported write was the
  frame's first, the torn line can even be ended: the writer that fails closes the input before it reports, but
  shutdown can come in between and still send its newline, because the partial-frame flag is not set.
  `MaskFailureSendsUnreportedBytes` gives that run for every request line and every place where the first write
  is cut; `TornFrameEndsTheWire` shows that the flag decides: some continuation sends the newline exactly when
  the flag is clear, the input is open and none was sent, and the flag is clear exactly when nothing of the torn
  frame was recorded.
* **A lone `;` is not data.** The subprocess form delivers a batch unchanged exactly when no data argument is
  the separator itself (`SubprocessIsLossless`); the control form always does.
* **A program's own name follows a simpler rule.** The quoting used for arguments survives the rule by which a
  Windows program reads its own name exactly when the name holds no quote and ends in no backslash
  (`ProgramNameRecovered`).

The comment above `escaped_argument` (src/backend.cpp:46-52) says that backslashes before a trailing separator
are doubled; the code inserts exactly one backslash, as its inner comment says, and the model follows the code.

## Model

| member | source | states |
|---|---|---|
| ControlParser.ChunkIndependence | src/control.cpp:159-283 | However a byte stream is cut into pieces, feeding them gives the events, the error, the open block and the pending bytes that feeding the whole gives |
| ControlParser.BoundedRefinesUnbounded | src/control.cpp:170-237 | For every stream and retention bound the bounded parser shows the unbounded one's blocks with the body cut to the bound, the full length counted, the flag set exactly when cut, and framing, metadata and errors unchanged |
| ControlParser.RunIsLineReading | src/control.cpp:248-281 | On lines within the line bound the byte-wise reading is the simple line-by-line reading, events, open block and failure alike |
| ControlParser.FailureIsTerminal | src/control.cpp:161-163 | After a failure nothing is read and nothing changes |
| ControlParser.StreamRoundTrip | src/control.cpp:159-283 | Any sequence of reply blocks, output, extended output and other notifications a server can send, in whatever pieces it arrives and under any retention bound, is read back as exactly what it means, with bodies cut to the bound |
| ControlParser.ReadItem | src/control.cpp:170-237 | The lines of one reply block or notification are read as that block or notification and leave nothing open |
| ControlParser.BeginRoundTrip | src/control.cpp:68-95 | A begin guard with three decimal fields is read as those three numbers and its metadata |
| ControlParser.PayloadRoundTrip | src/control.cpp:97-129 | Octal-escaping then decoding gives back every byte string |
| ControlParser.DecodeOctalPayload | src/control.cpp:97-129 | The decoding loop gives the decoded bytes, or the error of the first bad escape |
| ControlParser.Parser.TakeLine | src/control.cpp:170-237 | One line changes the open block and the failure and yields the events exactly as the line rules say |
| ControlParser.Parser.FeedBytes | src/control.cpp:248-283 | The segment-wise loop, with its no-copy path and its line bound, computes the byte-wise reading of its input |
| ControlParser.Parser.FinishStream | src/control.cpp:285-302 | Finishing fails on a partial line or an open block, stays failed, and is otherwise recorded once |
| CompletionQueue.ApplyAllWellFormed | src/completion_queue.cpp:34-87 | Under any sequence of operations ready tokens stay distinct, registered and in strictly increasing generation order |
| CompletionQueue.TakeStepsWellFormed | src/completion_queue.cpp:34-87 | So it does when dispatchers claim or discard records between the operations |
| CompletionQueue.RunReadySettles | src/completion_queue.cpp:320-358 | Whatever callbacks and other threads do during a pass: it ends with no record linked before it still ready, runs none linked after its start, nothing twice, in linking order, and everything nobody took away |
| CompletionQueue.UndisturbedPass | src/completion_queue.cpp:320-358 | Left alone, a pass runs exactly the ready list in order |
| CompletionQueue.DiscardAllDropsReady | src/completion_queue.cpp:360-377 | Discarding drops exactly the ready records |
| CompletionQueue.ReprLink | src/completion_queue.cpp:34-49 | Linking at the tail keeps the doubly linked records a representation of the FIFO |
| CompletionQueue.ReprUnlink | src/completion_queue.cpp:51-76 | Unlinking a record anywhere in the list keeps it a representation of the FIFO without that record |
| CompletionQueue.Queue.LinkReady | src/completion_queue.cpp:34-49 | The link updates append the token to the FIFO with the next generation |
| CompletionQueue.Queue.UnlinkReady | src/completion_queue.cpp:51-76 | The link updates remove exactly that token from the FIFO |
| CompletionQueue.Queue.RefreshWake | src/completion_queue.cpp:103-126 | The wake flag is armed exactly when work is ready or the queue is finished or closed |
| CompletionQueue.Queue.EnqueueToken | src/completion_queue.cpp:173-189 | Links a registered, not yet linked token of an open queue and says whether it did |
| CompletionQueue.Queue.DetachToken | src/completion_queue.cpp:191-209 | Removes the record, and its link if it has one |
| CompletionQueue.Queue.NextToken | src/completion_queue.cpp:242-246 | Hands out each token once |
| CompletionQueue.Queue.RegisterRecord | src/completion_queue.cpp:252-268 | Registers under an unused token of an open queue and says whether it did |
| CompletionQueue.Queue.PushReadyRecord | src/completion_queue.cpp:270-288 | Registers and links in one step, or refuses on a closed queue |
| CompletionQueue.Queue.ClaimReady | src/completion_queue.cpp:78-87 | Takes the oldest ready record out of list and map |
| CompletionQueue.Queue.RunReady | src/completion_queue.cpp:320-358 | The dispatch loop is the FIFO pass under any interference, and does nothing while another pass owns the queue |
| CompletionQueue.Queue.DiscardReady | src/completion_queue.cpp:360-377 | Drops every ready record, counts them, and does nothing while a pass owns the queue |
| CompletionQueue.Queue.FinishQueue | src/completion_queue.cpp:398-406 | Marks the queue finished and keeps the list |
| CompletionQueue.Queue.CloseQueue | src/completion_queue.cpp:407-426 | Closes once, with no record and no link left |
| OperationProtocol.NoLostOrDoubledCompletion | src/operation_state.hpp:600-617 | Over every interleaving of publish or retire, subscribe and dispatch: linked at most once, run at most once, always with an outcome present, and linked exactly once when both sides are done and nobody detached, discarded or closed |
| OperationProtocol.AdmissionReleasedExactlyOnce | src/operation_state.hpp:400-409 | The admission is given back at most once, and exactly when the transport is retired and the observer is detached or delivered, whatever the order and however often retire is called |
| OperationProtocol.OutcomeIsFinal | src/operation_state.hpp:215-240 | No later step changes the first outcome |
| OperationProtocol.CancelOnlyBeforeOutcome | src/operation_state.hpp:133-145 | A cancellation is accepted only while there is no outcome and the transport is not retired |
| OperationProtocol.QueueDoesRecordSteps | src/completion_queue.cpp:173-189 | The queue's operations on a token are the record steps of the race |
| OperationProtocol.OtherTokensDoNotMatter | src/completion_queue.cpp:191-209 | Operations on other tokens, short of closing, leave a record where it is |
| CompletionRace.EveryRunIsARace | src/completion_queue.cpp:173-189 | Every run of one operation together with the real queue, whose other records are registered, linked, detached, claimed, run and discarded freely, is a run of the record steps of the race, and keeps queue and race in agreement |
| CompletionRace.NoLostCompletionInQueue | src/operation_state.hpp:600-617 | In every such run, from any queue in use: linked at most once, run at most once and then with an outcome, and when both sides are done a record nobody took away is ready in the queue, in a dispatcher's hand, or has run |
| OperationProtocol.InFlightIsHeldAdmissions | src/process_engine.cpp:178-195 | Over every interleaving of any number of operations the in-flight count is the number of admissions not given back, within the limit, and giving back never meets zero |
| OperationProtocol.OperationState.DoPublish | src/operation_state.hpp:215-240 | Stores the first outcome only, and asks for the enqueue exactly when a callback observer waits |
| OperationProtocol.OperationState.DoRetire | src/operation_state.hpp:350-392 | Retires once, publishing an abandoned outcome when there is none |
| OperationProtocol.OperationState.AdvanceTransport | src/operation_state.hpp:394-398 | A mark sets the transport phase and changes nothing else |
| OperationProtocol.OperationState.DoSelectCallback | src/operation_state.hpp:268-275 | Makes the token the waiting observer, in the state and in the relay |
| OperationProtocol.OperationState.DoTakeCallback | src/operation_state.hpp:294-311 | Delivers to the waiting token, and gives back the admission if that was the last condition |
| OperationProtocol.OperationState.DoDetachCallback | src/operation_state.hpp:313-329 | Detaches only the token that is waiting |
| OperationProtocol.OperationState.DoDetachUnselected | src/operation_state.hpp:331-344 | Detaches only an operation nobody observes |
| OperationProtocol.OperationState.DoFinishWait | src/operation_state.hpp:277-292 | A blocking wait that has its outcome delivers it |
| OperationProtocol.OperationState.DoRequestCancel | src/operation_state.hpp:133-145 | Asks for cancellation once, before outcome and retirement |
| OperationProtocol.OperationState.TakeRelease | src/operation_state.hpp:400-409 | Yields the release exactly when it is due and not yet taken |
| OperationProtocol.Channel.TryAdmit | src/process_engine.cpp:178-188 | Admits exactly when the channel has not failed and the limit is not reached |
| OperationProtocol.Channel.Release | src/command_engine.cpp:69-74 | Gives back one admission and never goes below zero |
| NotificationStream.ConsumersDoNotInterfere | src/notification_stream.cpp:106-169 | In every run what a cursor receives and its drop count are what an unpruned log with the same bounds, the same pushes and its own takes would give it |
| NotificationStream.OtherConsumersAreInvisible | src/notification_stream.cpp:60-71 | Two runs that agree on the pushes and on a cursor's own takes give it the same notifications and drop count |
| NotificationStream.CursorConservation | src/notification_stream.cpp:149-169 | Delivered plus reported dropped plus retained for the cursor is always what was issued since its start, and the drop count never falls |
| NotificationStream.ApplyAllValid | src/notification_stream.cpp:122-137 | Over every run count and bytes stay within bounds, bytes is the sum of sizes, and sequences increase |
| NotificationStream.EvictSuffix | src/notification_stream.cpp:126-134 | Making room in a log and in its pruned suffix keeps the second a suffix of the first, and evicts from the first only what the suffix lacks or loses too |
| NotificationStream.EvictMakesRoom | src/notification_stream.cpp:127-131 | Eviction leaves room for the arriving notification in both bounds |
| NotificationStream.Log.SubscribeCursor | src/notification_stream.cpp:47-58 | A new cursor starts at the oldest retained entry or at the end, and is armed when something waits |
| NotificationStream.Log.UnsubscribeCursor | src/notification_stream.cpp:60-71 | Removes the cursor and prunes what only it still needed |
| NotificationStream.Log.PruneConsumed | src/notification_stream.cpp:106-120 | Drops exactly what every live cursor has passed |
| NotificationStream.Log.PushNotification | src/notification_stream.cpp:122-137 | Issues a sequence, evicts from the front as needed, drops what can never fit, and arms waiting cursors |
| NotificationStream.Log.CloseStream | src/notification_stream.cpp:139-147 | Closes once and arms every cursor |
| NotificationStream.Log.Walk | src/notification_stream.cpp:153-162 | One pass yields what lies at or after a sequence, and what it yields plus the gaps is everything issued since |
| NotificationStream.Log.TakeNotifications | src/notification_stream.cpp:149-178 | Gives the retained rest, moves the cursor to the end, and stores the drop count that was reported before |
| NotificationStream.Log.DroppedCount | src/notification_stream.cpp:198-220 | The drop count a caller is told, without changing anything |
| Boundary.AppendHex64 | src/connection.cpp:79-85 | Appends the sixteen hexadecimal digits of a value |
| Boundary.MakeBoundaryName | src/connection.cpp:87-98 | Builds the name of a sequence number from the prefix, the seed's digits and the number's digits |
| Boundary.MatchesBoundary | src/connection.cpp:104-116 | Byte-wise comparison succeeds exactly on an untruncated error block whose body is the expected reply |
| Boundary.HexInjective | src/connection.cpp:79-85 | Values that fit the digits have different digits |
| Boundary.BoundariesDiffer | src/connection.cpp:87-102 | Different sequence numbers give different names and different boundary replies |
| Boundary.BoundaryFitsBound | src/connection.cpp:87-116 | A boundary reply is shorter than the smallest accepted retention bound and its name holds no newline |
| Connection.ActKeepsInv | src/connection.cpp:1205-1279 | Every step of every thread keeps the connection's invariant: one writer, only the last entered frame incomplete, and the pipe holding exactly the requests' progress in entry order |
| Connection.ActAllKeepsInv | src/connection.cpp:1205-1279 | So does every run |
| Delivery.PipeHoldsWholeFrames | src/connection.cpp:881-950 | Over every run the pipe holds whole frames of distinct requests in entry order, then a prefix of the last one, then at most the shutdown newline, which follows a torn frame only if nothing of it was recorded |
| Delivery.TornFrameEndsTheWire | src/connection.cpp:1433-1445 | Over every run, once a request has left its frame torn the pipe's contents are final but for one newline, which some continuation adds if and only if the input is open, none was sent and the partial flag is clear; the flag is clear exactly when nothing of that frame was recorded |
| Delivery.NothingFollowsTornFrame | src/connection.cpp:1433-1445 | From any state that meets the invariant, after a torn frame nothing reaches the pipe but that newline, and only where the flag allows it |
| Delivery.LineCanBeEnded | src/connection.cpp:1433-1445 | And where it does, some run of the other threads and shutdown sends it |
| Delivery.StatusOnlyAdvances | src/connection.cpp:891-899 | Over every run delivery status and progress only move forward, a frame never changes, and a reported result is final |
| Delivery.ReportedStatusIsTrue | src/connection.cpp:1268-1278 | not_started means that no byte was recorded, indeterminate that some were, written that the whole frame was; what was recorded is what was written exactly when no write went unreported |
| Delivery.NotStartedIsSafeToResend | src/server.cpp:558-573 | A request reported not_started leaves the pipe, then and later, as if it had never been made, if and only if no mask restore failed after one of its own writes; so the relaunch fallback sends its commands once |
| Delivery.LostOnlyByMask | src/connection.cpp:479-509 | A request loses track of its bytes if and only if a mask restore failed in the run after one of its own writes |
| Delivery.MaskFailureSendsUnreportedBytes | src/connection.cpp:479-509 | For every request line and every cut of its first write: a run in which shutdown comes between the failed writer and its closing of the input, the torn line is ended with a newline, and the request is reported not_started |
| Delivery.RequestsHaveOwnBoundaries | src/connection.cpp:1214-1217 | Over every run two requests wait for different boundaries while the 64-bit counter has not wrapped |
| Attribution.SuccessfulRequestsGetTheirOwnReplies | src/connection.cpp:594-662 | Against a server that answers in order with own blocks and then the boundary, every request that completes without error wrote its whole frame, was ended by its own boundary and holds exactly its blocks in order |
| Attribution.ActAttribution | src/connection.cpp:611-662 | Every step keeps pending requests in answer order and each one's blocks equal to what was said for it |
| ConnectionState.State.FailLocked | src/connection.cpp:594-609 | Completes every pending request with its own delivery status, keeping earlier errors, and empties the queue |
| ConnectionState.State.AcceptBlock | src/connection.cpp:611-648 | Startup, noise, unsupported flags and answers are handled as the protocol's accept step |
| ConnectionState.State.AcceptAnswerLocked | src/connection.cpp:645-662 | An answer goes to the oldest pending request, a boundary completes it, and an unexpected one fails the connection |
| ConnectionState.State.EnterRequest | src/connection.cpp:1218-1232 | A request enters the queue exactly when the connection is ready, open and unfailed |
| ConnectionState.State.RecordProgress | src/connection.cpp:891-941 | Partial flag and status after a write; a reply already recorded is never overwritten |
| ConnectionState.State.LeaveAfterFailure | src/connection.cpp:1234-1243 | A failed write closes and fails the connection exactly when nobody had closed it, and then owes the closing of the input |
| ConnectionState.State.FailAfterDeadline | src/connection.cpp:1245-1256 | A request whose deadline passes closes and fails the connection, and owes the closing of the input |
| ConnectionState.State.PoisonInput | src/connection.cpp:1258-1262 | The input is closed under the write lock before the request goes on to report |
| ConnectionState.State.RequestShutdown | src/connection.cpp:1420-1432 | Shutdown completes every pending request and closes the connection |
| ProcessEngine.ExactlyOnePlace | src/process_engine.cpp:299-314 | Over every run an accepted submission is in exactly one of pending, launching, arrived, live or published, no child is launched twice, and a submission settled without a child was never launched |
| ProcessEngine.ReactorReturnsLast | src/process_engine.cpp:454-479 | The reactor returns only when every accepted submission is published exactly once, and nothing is accepted or published afterwards |
| ProcessEngine.RefusalsAreTrue | src/process_engine.cpp:364-414 | Exactly the submissions settled without a child have a reason, the channel or stop it names still holds, and some step of the run refused that submission for it, no earlier test applying: a failure, a withdrawal or stop, an expired deadline, a failed creation |
| ProcessEngine.NeverStuck | src/process_engine.cpp:332-362 | In no reachable state of a stopping engine are both threads unable to move before both have returned |
| ProcessEngine.StopUsesUpWork | src/process_engine.cpp:332-362 | After a stop every step of a thread that changes anything uses up work, and nothing adds any |
| ProcessEngine.ShutdownCompletes | src/process_engine.cpp:669-676 | From every reachable stopping state both threads can return within a bounded number of steps, with everything accepted published |
| ProcessEngine.EveryShutdownFinishes | src/process_engine.cpp:669-676 | However the threads of a stopping engine are scheduled and whatever launches and children do, their effective steps are no more than the work there is, and when none can move both have returned with everything accepted published |
| ProcessEngine.RetireSplits | src/process_engine.cpp:613-665 | One pass publishes exactly the finished children, in order, and keeps the others in order |
| ProcessEngine.RetireKeeps | src/process_engine.cpp:613-665 | The pass keeps the engine's invariant |
| ProcessEngine.SharedQueues.SubmitWork | src/process_engine.cpp:299-314 | Accepts exactly when neither stop nor failure is set, in one section |
| ProcessEngine.SharedQueues.TakeWork | src/process_engine.cpp:337-349 | Takes the oldest submission with the flags as they stand, or returns when stopping and empty |
| ProcessEngine.SharedQueues.DecideLaunch | src/process_engine.cpp:364-394 | Failure, then withdrawal or stop, then the deadline refuse a submission, in that order |
| ProcessEngine.SharedQueues.LaunchThroughGate | src/process_engine.cpp:402-420 | Under the gate a failed channel or a failed creation settles, and a created child waits to be handed over |
| ProcessEngine.SharedQueues.HandOver | src/process_engine.cpp:431-437 | The created child arrives under the engine's lock |
| ProcessEngine.SharedQueues.CollectArrivals | src/process_engine.cpp:465-479 | Owns every arrival in order and returns exactly when stopping with nothing pending, launching or live |
| ProcessEngine.SharedQueues.RetireFinished | src/process_engine.cpp:613-665 | Deciding and removing in one pass publishes the finished and keeps the rest |
| CommandEngine.StartsFollowTickets | src/command_engine.cpp:160-192 | Over every run runner calls start in strict ticket order, every ticket is pending, held by one worker or settled once, and while not stopped every ticket from the gate on is pending or held by exactly one worker |
| CommandEngine.NeverAllBlocked | src/command_engine.cpp:176-183 | In no reachable state are all workers blocked at the gate |
| CommandEngine.EveryCommandSettles | src/command_engine.cpp:160-243 | From every reachable state the workers can settle every accepted command exactly once, in order, without a new submission |
| CommandEngine.EveryScheduleSettles | src/command_engine.cpp:160-243 | However the workers are scheduled and whatever they decide, their effective steps are no more than the work there is, and when none can move every accepted command has settled exactly once and a stopped engine's workers are gone |
| CommandEngine.SharedGate.SubmitCommand | src/command_engine.cpp:136-152 | Accepts with the next ticket exactly when not stopped |
| CommandEngine.SharedGate.TakeCommand | src/command_engine.cpp:161-171 | Takes the oldest ticket, or ends the worker when stopped and empty |
| CommandEngine.SharedGate.WaitAtGate | src/command_engine.cpp:177-191 | Wakes on a stop, which cancels, or on the ticket's turn, which passes |
| CommandEngine.SharedGate.Advance | src/command_engine.cpp:245-254 | Moves the gate only for the ticket it stands at |
| CommandEngine.SharedGate.SkipCommand | src/command_engine.cpp:192-206 | A withdrawn or expired command gives up its turn before its outcome is published |
| CommandEngine.SharedGate.PublishOutcome | src/command_engine.cpp:235-242 | A command that is cancelled, skipped or done settles, and its worker goes back for more |
| CommandEngine.SharedGate.NotifyEntry | src/command_engine.cpp:76-81 | The guard moves the gate at most once, however often it is told |
| RuntimeLedger.CountersFollowLeases | src/async.cpp:96-213 | Over every interleaving each counter is the number of leases it stands for, so none underflows, in-flight stays within capacity although check and admission are separate steps, and every attempt is accepted or refused |
| RuntimeLedger.SlotReturnedOnce | src/async.cpp:178-204 | A lease returns its slot exactly once, exactly when admitted and all three legs are finished |
| RuntimeLedger.LegsCommute | src/async.cpp:170-204 | Legs of any leases may finish in any order and repeatedly with the same result |
| RuntimeLedger.LedgerObject.IsFull | src/async.cpp:110-113 | The capacity check under the submission lock |
| RuntimeLedger.LedgerObject.RefuseOne | src/async.cpp:115-118 | A refusal counts and ends the attempt |
| RuntimeLedger.LeaseObject.AdmitLease | src/async.cpp:151-161 | Admission raises exactly the counters of the legs it opens |
| RuntimeLedger.LeaseObject.CompleteLease | src/async.cpp:163-169 | Completion counts once per admitted lease |
| RuntimeLedger.LeaseObject.Finish | src/async.cpp:178-204 | One leg's flag and counter, and the slot when it was the last |
| SavedLayout.AcceptsTheGrammar | src/layout.cpp:101-122 | The reader accepts exactly the printed forms of valid trees of depth at most 256 with 32-bit numbers, and no two trees print alike |
| SavedLayout.RoundTrip | src/layout.cpp:101-122 | Printing then parsing gives back every valid tree and consumes all input |
| SavedLayout.PrintedIsRead | src/layout.cpp:101-122 | A printed cell is read back wherever it stands among siblings, the pane-id lookahead included |
| SavedLayout.ReadIsPrinted | src/layout.cpp:101-122 | Whatever is read is a valid cell whose printed form is exactly what was consumed |
| SavedLayout.SubstitutionChangesChecksum | src/layout.cpp:346-350 | Changing any one byte of a body changes its checksum |
| SavedLayout.ComputeChecksum | src/layout.cpp:346-350 | The rotating loop computes the checksum, which stays below 65536 |
| SavedLayout.LayoutSyntax.Take | src/layout.cpp:76-81 | Takes a character exactly when it is next |
| SavedLayout.LayoutSyntax.Number | src/layout.cpp:83-94 | Succeeds exactly on a run of digits whose value fits 32 bits, and ends where the run ends |
| SavedLayout.LayoutSyntax.PaneNumber | src/layout.cpp:105-110 | The offset goes back exactly when the number after the comma is the next cell's width or no number |
| SavedLayout.LayoutSyntax.CellSyntax | src/layout.cpp:101-122 | The in-place reader ends where the parse ends and has counted the tree's leaves |
| SavedLayout.LayoutSyntax.CellList | src/layout.cpp:116-121 | Cells while commas follow, with their leaves added up |
| JsonLayout.AcceptedIsLayout | src/layout.cpp:127-316 | Accepted exactly when the text is one tree whose cells all meet their bounds, with unique pane, floating and considered last indexes, at most one active pane and at least one pane; the leaf count is the number of panes |
| JsonLayout.CheckIsAddAll | src/layout.cpp:244-306 | The checks made while reading, children first, succeed exactly when every cell is in order and its panes can all be added |
| JsonLayout.AddAllIsUnique | src/layout.cpp:260-278 | Panes can all be added exactly when their numbers are unique and at most one is active |
| JsonLayout.StringsFollowSection7 | src/layout.cpp:166-191 | The reader finds the closing quote exactly where a string of section 7 of RFC 8259 ends |
| JsonLayout.IntegersFollowSection6 | src/layout.cpp:223-236 | The reader takes exactly the longest integer of section 6 of RFC 8259 that fits 64 bits |
| JsonLayout.JsonLayoutSyntax.ReadString | src/layout.cpp:166-191 | Reads a nonempty string token and where it ends |
| JsonLayout.JsonLayoutSyntax.ReadInteger | src/layout.cpp:223-236 | Reads an integer token without leading zeros |
| JsonLayout.JsonLayoutSyntax.CheckPane | src/layout.cpp:257-278 | A pane is taken exactly when its fields are in range and repeat nothing |
| JsonLayout.JsonLayoutSyntax.CheckFields | src/layout.cpp:244-279 | A cell passes exactly when its type, sizes, children and, for a pane, its marks are in order |
| JsonLayout.JsonLayoutSyntax.ReadValue | src/layout.cpp:192-236 | Reads one value by the syntax and makes the checks its role asks for |
| JsonLayout.JsonLayoutSyntax.ReadObject | src/layout.cpp:280-306 | Reads one object with distinct keys within the depth bound, and checks it by its role |
| JsonLayout.JsonLayoutSyntax.Parse | src/layout.cpp:307-315 | The whole reader accepts exactly as the syntax and the checks do, with the same leaf count |
| JsonPrinting.RoundTrip | src/layout.cpp:192-236 | Printing then reading gives back every well-formed object of depth at most 200 |
| JsonPrinting.ReadsExactly | src/layout.cpp:192-236 | The reader reads a tree if and only if it is well-formed and the text is its tokens in order, each after any space and nothing but space after the last |
| JsonPrinting.LaidOutLayoutsAccepted | src/layout.cpp:307-315 | A text is accepted if and only if it lays out a well-formed tree that meets the layout's conditions, with that tree's pane count |
| Layout.FindName | src/layout.cpp:25-35 | A name is known exactly when it is a preset or begins exactly one |
| Layout.CustomAccepted | src/layout.cpp:333-358 | A custom layout is accepted exactly when it is four hexadecimal digits, a comma and a valid tree with that checksum and enough panes |
| Layout.CustomIsJudged | src/layout.cpp:318-359 | No text of a custom layout's form is taken for JSON or for a preset |
| Layout.AcceptedExactly | src/layout.cpp:318-359 | The dispatching verdict accepts exactly JSON layouts, presets and custom layouts, each with enough panes where panes count |
| Layout.CorruptionIsCaught | src/layout.cpp:346-352 | Any one wrong byte in the tree of a custom layout is reported as a checksum mismatch by the dispatching verdict |
| Layout.CustomError | src/layout.cpp:333-358 | The digit loop, the checksum loop and the reader give that verdict |
| Layout.LayoutError | src/layout.cpp:318-359 | Empty, JSON, preset and custom layouts are told apart and judged in the source's order |
| Utf.DecodeIsInverse | src/process_validation.cpp:43-77 | The predictor's tests accept exactly the UTF-8 encodings of scalar values, and identify those values |
| Utf.FrontIsEncoding | src/process_validation.cpp:43-77 | A front that passes the tests is the encoding of one scalar value |
| Utf.EncodingPasses | src/process_validation.cpp:31-40 | Every encoded scalar value passes the tests, whatever follows |
| WindowsCommandLine.ArgumentsAreRecovered | src/process_windows.cpp:426-446 | The backslash and quote reading rules recover every argument from the assembled line, with or without the doubled-quote rule |
| WindowsCommandLine.ProgramNameRecovered | src/process_windows.cpp:426-446 | The rule for a program's own name recovers it exactly when it holds no quote and ends in no backslash |
| WindowsCommandLine.AppendQuotedArgument | src/process_windows.cpp:426-446 | The loop appends the quoted form |
| WindowsCommandLine.AssembleCommandLine | src/process_windows.cpp:544-550 | The assembly loop puts one space between quoted arguments |
| ProcessValidation.MeasureQuotedUtf8 | src/process_validation.cpp:43-104 | A string passes if and only if it is well-formed or some beginning of it already fills the largest size; the size of a well-formed one is the length of its quoted UTF-16 form, saturated |
| ProcessValidation.MeasureLine | src/process_validation.cpp:152-164 | The line passes exactly when every string of it does, and the running total is the saturated length of the line that will be assembled |
| ProcessValidation.ValidateProcessRequest | src/process_validation.cpp:135-177 | A request passes on Windows if and only if it is structurally sound, its assembled line is well-formed with fewer than 32767 units and its environment passes; malformed text is reported exactly when some string does not pass; the size reported is that length |
| ProcessValidation.PassingIsWellFormed | src/process_validation.cpp:163-170 | An environment whose strings are shorter than half the largest size passes exactly when it is well-formed |
| ArgumentTransport.SubprocessIsLossless | src/backend.cpp:53-63 | Escaping, joining and splitting give back the commands exactly when no data argument is a lone separator |
| ArgumentTransport.ControlArgumentsAreOneCommand | src/connection.cpp:1176-1182 | With every trailing semicolon escaped, any argument vector is seen as exactly one command, itself |
| ArgumentTransport.Invocations | src/support_commands.cpp:269-302 | Splitting, unescaping and resolving yield the named commands in order |
| ArgumentTransport.SplitArguments | src/support_commands.cpp:270-288 | The splitting loop follows tmux's rule for trailing semicolons |
| ArgumentTransport.TokenRoundTrip | src/connection.cpp:183-197 | A token decodes to its argument, holds no space or newline and is never the separator |
| ArgumentTransport.RenderedLineIsRead | src/connection.cpp:199-227 | A rendered line has exactly one newline, its last character, and splits and decodes to exactly the group |
| ArgumentTransport.RenderRequest | src/connection.cpp:199-227 | Rendering fails at the first empty command or NUL, on an empty group, and otherwise gives that line |
| ArgumentTransport.EncodeArgument | src/connection.cpp:183-197 | The escaping loop writes the token |

## Left out

- Process spawning, pipes, signals, reaping, descriptors and socket files: foreign calls, present only as outcomes of steps.
- Clocks: a deadline may pass at any step where the code looks at one.
- `run_one`, `wait_ready`, `sync_wait` and the notification stream's `wait`: a blocked thread is one that takes no step yet.
- Wake-pipe bytes: the armed flag is modelled, a one-byte read or write is assumed to succeed.
- Exceptions and allocation failure, test hooks and observers' timing.
- The reactor's per-child decisions (signals, drain deadlines, which failure is reported): they decide what is published, not whether or how often.
- `parse_flags`, command-name resolution and the refusal tables: finite data; resolution is a parameter of `Invocations`.
- Notification classification after parsing (src/control.cpp:304-500), entity methods, server factories, snapshots and version probing: thin wrappers or fixed tables.
- 64-bit wrap-around of sequence numbers, generations, tokens, tickets and statistics counters.
- Heap identity of cursors, requests and leases' shared pointers: they are values in a map under an id; weak pointers that expire are unsubscribes.
- ConnectionState.State.AcceptBlock: notifications are passed to the notification stream's model instead of being stored here.
- ProcessEngine.ShutdownCompletes: one schedule; EveryShutdownFinishes speaks of all of them. That a scheduler lets a thread that can move do so is not modelled.
- CommandEngine.EveryCommandSettles: one schedule in which every runner returns; EveryScheduleSettles speaks of all of them. A runner that never returns is one whose worker never takes its next step.
- ConnectionState.State.RecordProgress: the partial flag and the status exchange are one step, since the flag is read only under the write lock and the exchange is retried until no reply came in between.
- Connection.ActKeepsInv: `shutdown_complete` is not a separate flag, because `closing` is always set before it and refuses the same requests.
- Delivery.RequestsHaveOwnBoundaries: stops at 2^64 requests, where the counter wraps.
- Attribution.SuccessfulRequestsGetTheirOwnReplies: assumes the server answers in order and that no ordinary block equals the boundary being waited for.
- JsonLayout.AcceptedIsLayout: which of the reader's error texts is reported for a refused tree is not modelled.
- Layout.LayoutError: names the kind of refusal, not its text.
