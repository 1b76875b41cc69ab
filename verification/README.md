# Verified model of the recorder's controlled session

Omegaflow records terminal and browser sessions. This project models the parts of it that decide what
may happen next, and proves what they promise, in Dafny 4.11. `dafny verify dfyconfig.toml` checks it.

The controlled session is a stack of components, each a class with the fields its source has, proved
step by step against functions on values, about which the run theorems are stated:

- `Wire`, `Frames`: validated telemetry events, and the incremental framer of their lines (`EventFrames`).
- `Evidence`: sinks that may write short or fail, and the loop that writes a whole value.
- `Reploy`: the public session lifecycle (`ReployLifecycle`).
- `Operation`: one operation at a time on the Envoy channel (`OperationLifecycle`). The source keeps one
  state and a pending phase; the abstract machine keeps the phase on the wire and the pending request
  apart, and the class is proved to refine it.
- `Session`, `SessionRuns`, `PublicLines`, `Completion`, `Confluence`: both machines with a latched first
  failure, evidence and a deferred attachment end (`ControllerSession`), what every sequence of reports
  keeps, why a session run is a run of its lifecycle, when completion is dropped, and why the place of the
  attachment end among the public lines does not matter.
- `Transport`: the racing terminal and telemetry channels and the readiness barrier (`EnvoyTransport`).
- `Client`, `InputStreams`: request frames, authored input and observed output (`EnvoyClient`), and when the
  whole typed stream is safe.
- `Controller`, `ControllerRuns`: the assembly (`EnvoyController`), which releases results, gates and
  closure only at the right raw offset, and its invariants over every interleaving.

Beside it stand three more cores:

- `Capture`, `Deadlock`, `Progress`: concurrent capture of panes, as interleaved steps of one thread per pane
  and a coordinating thread, exactly when it is stuck, and the progress counter.
- `Alignment`: the streaming searches that align captured motion with video, and the cutting of fragments.
- `Narration`, `Sidecar`, `Presentation`: narration timing, the sidecar the recorder generates against
  the publisher's own validation, and what an accepted manifest means.

Each call of a class that can raise returns whether it did. A step takes the answers of its environment
(bytes read, write outcomes, clock readings, permissions) as inputs, so a theorem about every run is one
about every environment. Bytes read, frames parsed, events delivered, frames written and effects emitted
are kept as histories.

What the code does where a reader might expect something else:

- A chunk that is refused discards the frames already parsed in it (`Frames.RejectionDiscardsItsChunk`); what is
  handed out is exactly what the chunks before it hold (`Frames.ReadStream`, `Frames.SameFramesExactly`).
- Each input plan is scanned alone, so two plans can put a reserved pair on the stream
  (`InputStreams.SeamReachesTheStream`); `InputStreams.StreamIsSafeExactly` and
  `InputStreams.SeamDecidesAtExecute` say exactly when.
- The operation lifecycle alone takes a finalized result without its request
  (`Operation.FinalizedWithoutItsRequest`, exactly when: `Operation.FinalizedExactly`); the assembled controller
  does not (`ControllerRuns.OutcomesWereAsked`).
- After the public writer broke, completion counts as sent although its line is dropped
  (`Completion.CompletionCanBeDropped`, exactly when: `Completion.CompletionDroppedExactly`).
- A runner that leaves a report out can leave panes waiting for one another
  (`Deadlock.LeftOutReportSticks`, exactly when: `Deadlock.StuckExactly`).
- Waits can resolve out of text order when text lies outside every word
  (`Narration.StrayDashReversesWaits`); `Narration.WaitsKeepOrderExactly` gives the exact condition.
- A refused call moves even a finished public lifecycle to its failed state (`Reploy.FinishedCanFail`, exactly
  when: `Reploy.FailedExactly`); the stored result survives (`Reploy.ResultNeverChanges`).

## Model

| member | source | states |
|---|---|---|
| `Frames.EventFrames.Feed` | src/omegaflow/envoy_codecs.py:219-239 | a chunk is accepted exactly when the whole stream so far is acceptable as a batch (every LF line decodes, is bounded and carries the next sequence number, and the partial tail is bounded); the frames handed out extend the batch frames; a rejected chunk hands out nothing and fails the framer for good |
| `Frames.EventFrames.TakePart` | src/omegaflow/envoy_codecs.py:225-229 | extends the partial line exactly while a whole line could still fit the bound |
| `Frames.EventFrames.TakeLine` | src/omegaflow/envoy_codecs.py:230-235 | ends a line and accepts it exactly when it decodes in its place of the one sequence |
| `Frames.EventFrames.Eof` | src/omegaflow/envoy_codecs.py:241-242 | the stream may end exactly between two frames |
| `Frames.ReadStream` | src/omegaflow/envoy_codecs.py:211-242 | for every chunking of a stream the verdict is that of the batch reading of its bytes; the frames handed out are those of the longest run of leading chunks taken whole, also when a later one is refused; lines plus leftover are exactly the bytes read |
| `Frames.LeadingIsLongest` | src/omegaflow/envoy_codecs.py:219-239 | the leading chunks are taken whole, and no longer run of them is |
| `Frames.SameFramesExactly` | src/omegaflow/envoy_codecs.py:224-239 | two chunkings of one stream hand out the same frames exactly when their leading chunks hold the same number of complete lines |
| `Frames.AcceptsPrefix` | src/omegaflow/envoy_codecs.py:219-239 | a stream that is accepted had only accepted prefixes, whose frames are a prefix of its frames |
| `Frames.NothingLost` | src/omegaflow/envoy_codecs.py:223-232 | the complete lines and the tail of any stream concatenate to the stream |
| `Frames.LinesAppend` | src/omegaflow/envoy_codecs.py:223-235 | splitting a stream at any point and resuming from the kept tail gives the lines and tail of the whole |
| `Frames.SplitRejoins` | src/omegaflow/envoy_codecs.py:223 | splitting a chunk on LF loses nothing |
| `Frames.RejectionDiscardsItsChunk` | src/omegaflow/envoy_codecs.py:224-239 | an input on which the chunking shows: a good line alone is delivered, the same line sharing its chunk with a bad one is not |
| `Evidence.Sink.WriteAll` | src/omegaflow/controller_session.py:31-38 | however short the single writes are, the sink holds exactly a prefix of the value, and all of it when the call succeeds |
| `Evidence.ShortWritesSuffice` | src/omegaflow/envoy_transport.py:30-37 | a sink that takes one byte at a time still takes the whole value |
| `Reploy.EveryRunFollowsProtocol` | src/omegaflow/controller_lifecycle.py:53-288 | over every sequence of calls each effect is emitted only where the protocol permits it, the fields say exactly which effects were emitted, and the state stays coherent (a retained result agrees with the latched cause and statuses) |
| `Reploy.EmittedOnce` | src/omegaflow/controller_lifecycle.py:129-281 | attach, bootstrap, session-terminating, finalize-artifacts, complete, terminate, session-result and acknowledge are each emitted at most once |
| `Reploy.ResultNeverChanges` | src/omegaflow/controller_lifecycle.py:205-222 | a stored session result survives every later call, including those that fail the lifecycle |
| `Reploy.FailedExactly` | src/omegaflow/controller_lifecycle.py:103-106 | over every run the lifecycle has failed exactly if one of its calls was refused, in whatever state, also after its result |
| `Reploy.FinishedCanFail` | src/omegaflow/controller_lifecycle.py:103-106 | a run in which a late line moves a finished session to its failed state; the result stays |
| `Reploy.RecordingNeverReopens` | src/omegaflow/controller_lifecycle.py:90-97 | once recording permission has fallen it never returns |
| `Reploy.StepSound` | src/omegaflow/controller_lifecycle.py:103-288 | every call, accepted or refused, keeps coherence, undoes no latch, and sets exactly the latch of the effect it emits |
| `Reploy.StepPermitted` | src/omegaflow/controller_lifecycle.py:129-281 | an emitted effect is one the history permits |
| `Reploy.ReployLifecycle.OnEvent` | src/omegaflow/controller_lifecycle.py:153-224 | a public event line takes exactly the specified step, in time and out of it |
| `Reploy.ReployLifecycle.CheckAttachmentDeadline` | src/omegaflow/controller_lifecycle.py:122-127 | passes exactly while the session lives, the clock has not gone back and the attachment deadline has not expired |
| `Reploy.ReployLifecycle.AttachmentConnected` | src/omegaflow/controller_lifecycle.py:129-134 | the attachment confirmation takes exactly the specified step; a confirmation refused only for a missing grant is still recorded |
| `Reploy.ReployLifecycle.ConfirmEnvoyReady` | src/omegaflow/controller_lifecycle.py:145-151 | readiness is confirmed once, after bootstrap and attachment |
| `Reploy.ReployLifecycle.TakeTerminated` | src/omegaflow/controller_lifecycle.py:205-222 | a result is stored exactly when it is a startup failure, or completion was sent and it agrees with cause, output status and any workload status |
| `Reploy.ReployLifecycle.AttachmentEnded` | src/omegaflow/controller_lifecycle.py:226-233 | takes the end of a connected attachment exactly while terminating or with outputs final |
| `Reploy.ReployLifecycle.AttachmentUnavailable` | src/omegaflow/controller_lifecycle.py:254-261 | takes the absence of an attachment exactly in the same states |
| `Reploy.ReployLifecycle.ArtifactsFinalized` | src/omegaflow/controller_lifecycle.py:242-252 | completion is sent once, after finalization was asked for, under its grant |
| `Reploy.ReployLifecycle.RequestTerminationNow` | src/omegaflow/controller_lifecycle.py:263-273 | terminate is sent at most once, and only while active and granted |
| `Reploy.ReployLifecycle.AcknowledgeTerminated` | src/omegaflow/controller_lifecycle.py:275-281 | the result is acknowledged once, and only after it arrived |
| `Reploy.ReployLifecycle.ClientClosed` | src/omegaflow/controller_lifecycle.py:283-288 | a clean client exit is accepted once, after acknowledgement |
| `Operation.RequestTransparency` | src/omegaflow/controller_lifecycle.py:334-406 | an admitted cancel, finalize, or finalize-then-cancel before any observations changes neither which of them are accepted nor the phase, gate and seen gates reached, and no gate can be continued afterwards |
| `Operation.PendingIsInvisible` | src/omegaflow/controller_lifecycle.py:334-345 | observations run the same under any pending request |
| `Operation.GatesAreBracketed` | src/omegaflow/controller_lifecycle.py:362-388 | in an accepted session two gates of one operation have different identities, and the first was continued or interrupted before the second opened |
| `Operation.OneResultBetweenOperations` | src/omegaflow/controller_lifecycle.py:347-430 | between two executed operations lies a terminal result of the first |
| `Operation.OperationsAlwaysAccounted` | src/omegaflow/controller_lifecycle.py:347-454 | every executed operation is current, resolved by its own result, or drained away |
| `Operation.ClosureIsConfluent` | src/omegaflow/controller_lifecycle.py:456-470 | closed and terminal EOF lead to the same state in either order, closed exactly when the reasons agree |
| `Operation.BrokenForever` | src/omegaflow/controller_lifecycle.py:325-328 | a refused call is final |
| `Operation.ShellEndIsFinal` | src/omegaflow/controller_lifecycle.py:408-454 | after a result that ended the shell no operation and no shutdown begins again |
| `Operation.FinalizedWithoutItsRequest` | src/omegaflow/controller_lifecycle.py:408-430 | an input: this machine alone accepts a finalized result of an operation that was only cancelled (the assembled controller does not, see ControllerRuns.OutcomesWereAsked) |
| `Operation.FinalizedExactly` | src/omegaflow/controller_lifecycle.py:408-430 | after any calls a finalized result is accepted exactly for the current operation, once it was started and a finalize or a cancel of it was made |
| `Operation.RequestsAlwaysAccounted` | src/omegaflow/controller_lifecycle.py:334-430 | after any calls a running operation has a pending request exactly if one was made for it, and has left its start behind exactly if it was started |
| `Operation.OperationLifecycle.ExecuteOperation` | src/omegaflow/controller_lifecycle.py:347-355 | the source fields take the abstract step: accepted exactly when idle, the shell lives and recording is permitted |
| `Operation.OperationLifecycle.OperationStarted` | src/omegaflow/controller_lifecycle.py:357-360 | the start observation refines the abstract step, also behind a pending request |
| `Operation.OperationLifecycle.OperationReady` | src/omegaflow/controller_lifecycle.py:362-368 | a gate opens exactly when running and not seen before |
| `Operation.OperationLifecycle.ContinueOperation` | src/omegaflow/controller_lifecycle.py:370-374 | a gate is continued exactly when open, matching, permitted and with no request pending |
| `Operation.OperationLifecycle.OperationContinued` | src/omegaflow/controller_lifecycle.py:376-381 | the continuation observation refines the abstract step |
| `Operation.OperationLifecycle.OperationGateInterrupted` | src/omegaflow/controller_lifecycle.py:383-388 | an interrupted gate closes whether it was open or continuing |
| `Operation.OperationLifecycle.FinalizeOperation` | src/omegaflow/controller_lifecycle.py:390-396 | a finalize request is admitted exactly once, for a started operation |
| `Operation.OperationLifecycle.CancelOperation` | src/omegaflow/controller_lifecycle.py:398-406 | a cancel request is admitted in every phase, also over a finalize |
| `Operation.OperationLifecycle.TakeTerminalResult` | src/omegaflow/controller_lifecycle.py:408-430 | the table of admissible outcomes, state by state, is the abstract rule on phase and pending request |
| `Operation.OperationLifecycle.RequestShutdown` | src/omegaflow/controller_lifecycle.py:432-438 | shutdown is admitted exactly when idle with a live shell |
| `Operation.OperationLifecycle.ObserveDraining` | src/omegaflow/controller_lifecycle.py:440-454 | draining is admitted from idle, after shutdown, or for an unstarted operation whose shell ended |
| `Operation.OperationLifecycle.ObserveClosed` | src/omegaflow/controller_lifecycle.py:456-460 | closed is admitted once, with the reason of the drain |
| `Operation.OperationLifecycle.ObserveTerminalEof` | src/omegaflow/controller_lifecycle.py:462-466 | terminal EOF is admitted once, while draining |
| `Session.ControllerSession.OnEventLine` | src/omegaflow/controller_session.py:133-174 | a public line takes exactly the specified turn: evidence first, then the lifecycle, then a deferred attachment end, then judgement, failure and acknowledgement |
| `Session.ControllerSession.InterpretEvent` | src/omegaflow/controller_session.py:148-152 | the lifecycle sees the event before a deferred attachment end |
| `Session.ControllerSession.ConcludeEvent` | src/omegaflow/controller_session.py:153-174 | output failure, session result, acknowledgement and renewed termination follow in that order |
| `Session.ControllerSession.FailWith` | src/omegaflow/controller_session.py:112-122 | latches the first failure with what was active, stops recording and asks for termination if it can |
| `Session.ControllerSession.TerminateIfPossible` | src/omegaflow/controller_session.py:104-110 | asks for termination exactly while active, granted and with a working writer |
| `Session.ControllerSession.ReportAttachmentEnd` | src/omegaflow/controller_session.py:124-131 | hands a seen attachment end to the lifecycle once it is ending |
| `Session.ControllerSession.AttachmentConnected` | src/omegaflow/controller_session.py:176-184 | a connection after the end is a failure, otherwise the lifecycle decides |
| `Session.ControllerSession.AttachmentEnded` | src/omegaflow/controller_session.py:186-200 | a clean early end only stops recording; an unclean one is a failure |
| `Session.ControllerSession.AttachmentFailed` | src/omegaflow/controller_session.py:202-211 | a failed launch counts as an end of an attachment that never was |
| `Session.ControllerSession.Stderr` | src/omegaflow/controller_session.py:213-224 | stderr is kept in its sink and in the bounded tail |
| `Session.ControllerSession.ArtifactsFinalized` | src/omegaflow/controller_session.py:226-232 | completion is marked by the lifecycle, and its line dropped when the public writer broke |
| `Session.ControllerSession.RequestFailed` | src/omegaflow/controller_session.py:234-237 | a broken public writer is remembered and latched as a failure |
| `Session.ControllerSession.CancelOperation` | src/omegaflow/controller_session.py:239-244 | an admitted cancel is an effect, a refused one a failure |
| `Session.ControllerSession.ClientClosed` | src/omegaflow/controller_session.py:246-256 | a client that closes without a retained result is a failure |
| `SessionRuns.EveryReport` | src/omegaflow/controller_session.py:98-256 | whatever is reported: the session stays coherent, the first failure stays, retain-partial-artifacts is emitted exactly with it, a retained result was acknowledged unless the writer broke, and no deferred end waits that the lifecycle could take |
| `SessionRuns.EveryRun` | src/omegaflow/controller_session.py:98-256 | over every sequence of reports partial artifacts are retained exactly once, if and only if there is a failure |
| `SessionRuns.FirstFailureStays` | src/omegaflow/controller_session.py:112-122 | the first failure is never replaced |
| `SessionRuns.EndIsNeverRefused` | src/omegaflow/controller_session.py:124-131 | the lifecycle never refuses a deferred attachment end, and is told as soon as it can take it |
| `SessionRuns.OnlyLinesAcknowledge` | src/omegaflow/controller_session.py:133-256 | no report but a public line acknowledges, and only stderr moves the stderr view |
| `SessionRuns.AcknowledgedResultIsRetained` | src/omegaflow/controller_session.py:140-171 | every acknowledgement follows a complete terminated line already in the event sink |
| `SessionRuns.EvidenceOnlyGrows` | src/omegaflow/controller_session.py:140-256 | no report takes anything from the event log, or opens a closed session |
| `SessionRuns.FailureSeeksTermination` | src/omegaflow/controller_session.py:104-174 | after any public line a failed session that is active, granted and can still write has asked for termination |
| `SessionRuns.TailIsLastBytes` | src/omegaflow/controller_session.py:213-220 | the stderr tail is the last bytes of the whole stderr stream, up to the bound |
| `PublicLines.SessionFollowsLifecycle` | src/omegaflow/controller_session.py:98-256 | every run of the session is a run of its public lifecycle: the same state, and the public lines sent are those the lifecycle authorised, in order; only completion can be missing, and only after the public writer broke |
| `PublicLines.LinesFollowProtocol` | src/omegaflow/controller_session.py:98-256 | no public line is ever sent twice, each one but completion is sent exactly if the lifecycle holds it for sent, and while the writer works the lines keep the order of the protocol |
| `PublicLines.SessionNeverGoesBack` | src/omegaflow/controller_session.py:90-256 | over every run a stored result is never replaced, and recording permission, once refused by the lifecycle, by a failure or by closing, never returns |
| `PublicLines.AcknowledgementHasEvidence` | src/omegaflow/controller_session.py:140-171 | in every run that has acknowledged, a terminated line stands whole in the event sink from where it was written |
| `Completion.CompletionStep` | src/omegaflow/controller_session.py:226-232 | an artifacts report that is admitted makes completion count as sent either way, and sends its line exactly if the public writer had not failed |
| `Completion.CompletionDroppedExactly` | src/omegaflow/controller_session.py:226-237 | in every run completion counts as sent without its line exactly if the writer failure was reported before the artifacts report that completed |
| `Completion.CompletionCanBeDropped` | src/omegaflow/controller_session.py:226-237 | a run in which that happens |
| `Confluence.EndShadows` | src/omegaflow/controller_session.py:186-200 | a clean end on an open session is never refused and asks for finalization only with outputs final |
| `Confluence.LineRelated` | src/omegaflow/controller_session.py:133-174 | any public line acts alike on two sessions of which one has its attachment end already |
| `Confluence.AttachmentEndCommutes` | src/omegaflow/controller_session.py:124-211 | wherever a clean attachment end falls among public lines, either both orders fail or they arrive in the same state, but for the recording flag, with the same effects: finalization asked for once, exactly if outputs are final |
| `Transport.ReceiveKeeps` | src/omegaflow/envoy_transport.py:282-321 | whatever arrives on either channel: events delivered plus queued are the events parsed, in order; raw log plus early bytes are the terminal bytes read; the delivered events are nonfatal diagnostics, one ready, and then neither a ready nor a fatal event; nothing follows the ready before its offset is reached; the re-queue branch is never taken |
| `Transport.ReadyAtExactOffset` | src/omegaflow/envoy_transport.py:218-220 | a live pair becomes ready exactly when its raw log reaches the offset of the ready event |
| `Transport.PendingDeliversNothing` | src/omegaflow/envoy_transport.py:272-277 | while the barrier is pending no event is delivered, whatever the telemetry holds |
| `Transport.InterleavingsAgree` | src/omegaflow/envoy_transport.py:282-321 | two ready runs that read the same bytes, however the channels raced, delivered the same events, kept the same raw log and met the same barrier |
| `Transport.LogGrows` | src/omegaflow/envoy_transport.py:208-216 | the raw log is only ever extended, and readiness is lost only with the pair |
| `Transport.BarrierShaped` | src/omegaflow/envoy_transport.py:263-271 | the barrier of a live pair is a well-formed ready event |
| `Transport.Run` | src/omegaflow/envoy_transport.py:282-321 | every sequence of readings, write outcomes and errors keeps the whole invariant |
| `Transport.EnvoyTransport.ReceiveOne` | src/omegaflow/envoy_transport.py:282-321 | one receive takes exactly the specified move, and closes the pair on failure |
| `Transport.EnvoyTransport.Append` | src/omegaflow/envoy_transport.py:208-216 | the raw log grows by the whole value, or only by what the sink kept when the call fails |
| `Transport.EnvoyTransport.HandleEvent` | src/omegaflow/envoy_transport.py:259-280 | fatal, ready, deferred, early and ordinary events each take their own branch |
| `Transport.EnvoyTransport.FindFatal` | src/omegaflow/envoy_transport.py:283-287 | a fatal diagnostic anywhere in the queue is found |
| `Transport.EnvoyTransport.TakeTerminalRead` | src/omegaflow/envoy_transport.py:292-321 | terminal bytes are withheld, retained or refused by the barrier |
| `Transport.EnvoyTransport.TakeTelemetryRead` | src/omegaflow/envoy_transport.py:292-311 | telemetry is kept before it is framed, and a batch is queued whole |
| `Transport.EnvoyTransport.Send` | src/omegaflow/envoy_transport.py:181-206 | a write needs a ready pair, and a failed one closes it |
| `Client.AdmitInputs` | src/omegaflow/envoy_client.py:34-48 | a plan is admitted exactly when the concatenation of its chunks holds no reserved pair and fits the count bound, empty chunks or not |
| `Client.SafeNext` | src/omegaflow/envoy_client.py:39-45 | one remembered byte decides whether a reserved pair crosses two chunks |
| `InputStreams.StreamIsSafeExactly` | src/omegaflow/envoy_client.py:34-48 | in every run the bytes typed hold no reserved pair exactly when, wherever a plan was adopted, the bytes typed before it and since do not meet in one |
| `InputStreams.SeamDecidesAtExecute` | src/omegaflow/envoy_client.py:96-154 | what a caller can check at execute: after a safe stream, and until the next execute, what is typed stays safe exactly if the last byte written and the first byte of the plan do not pair, or nothing of the plan is written |
| `InputStreams.CheckedRunsAreSafe` | src/omegaflow/envoy_client.py:34-154 | a caller that checks every plan against the last byte written never types a reserved pair, over any run |
| `InputStreams.SeamReachesTheStream` | src/omegaflow/envoy_client.py:34-154 | a run in which it does: two plans, each admitted, typed whole and resolved by its own result, put a reserved pair on the stream |
| `InputStreams.TypesOne` | src/omegaflow/envoy_client.py:96-197 | any one admissible chunk can be executed, typed whole and resolved |
| `Client.EveryRun` | src/omegaflow/envoy_client.py:96-197 | in every run: control frames are numbered from 2 without a gap, each execute and continue frame counts exactly the input fully written before it, the input of an operation is a safe prefix of its plan, and result ranges are ordered and disjoint |
| `Client.NothingRegresses` | src/omegaflow/envoy_client.py:165-180 | frontier, mark offset, elapsed time and mark count never go back |
| `Client.BoundaryIsCovered` | src/omegaflow/envoy_client.py:174-197 | in every run each accepted boundary comes straight after an accepted mark, at that mark's offset |
| `Client.ResultKeepsItsAnchor` | src/omegaflow/envoy_client.py:181-193 | until the next execute a result is accepted only if its range begins where the operation started |
| `Client.AskKeeps` | src/omegaflow/envoy_client.py:96-136 | a request keeps the whole client invariant whether it is refused, lost or written |
| `Client.ObserveKeeps` | src/omegaflow/envoy_client.py:156-197 | an observation keeps it too, whether accepted or refused |
| `Client.EnvoyClient.MakeRequest` | src/omegaflow/envoy_client.py:96-136 | preflight first, then the operation lifecycle, then the plan, then the frame: each outcome leaves exactly the specified state |
| `Client.EnvoyClient.BeginInput` | src/omegaflow/envoy_client.py:138-148 | input is admitted exactly for the started operation of the plan, in its input phases |
| `Client.EnvoyClient.EndInput` | src/omegaflow/envoy_client.py:149-154 | only a fully written chunk advances the watermark |
| `Client.EnvoyClient.ObserveEvent` | src/omegaflow/envoy_client.py:156-197 | an event is accepted exactly under the marks, boundary, identity and anchor rules, and settles exactly its own facts |
| `Client.EnvoyClient.Receive` | src/omegaflow/envoy_client.py:199-212 | a refused observation closes the pair |
| `ControllerRuns.ClosedIsWhole` | src/omegaflow/envoy_controller.py:187-211 | in every run, closed means that the raw log is every byte the terminal sent, and that its length, the validated frontier and the final offset agree |
| `ControllerRuns.ClosureOrdersAgree` | src/omegaflow/envoy_controller.py:186-211 | terminal EOF before, between or after draining and closed ends the session the same way, closed exactly when the raw log ends at the offset named |
| `ControllerRuns.ReleasedResultsAreRetained` | src/omegaflow/envoy_controller.py:67-77 | results are released in the order accepted, each once, only with their raw range retained, and their ranges are ordered and disjoint |
| `ControllerRuns.ResultIsNeverOverwritten` | src/omegaflow/envoy_controller.py:67-182 | no move overwrites an accepted result before it is taken |
| `ControllerRuns.ContinuedGatesWereRetained` | src/omegaflow/envoy_controller.py:92-98 | every continue frame was written for a gate of that name seen in the same operation, whose own output was in the raw log when the frame was written |
| `ControllerRuns.ContinueAtRetainedGate` | src/omegaflow/envoy_controller.py:92-98 | when a continue is admitted, its own gate has its output in the raw log at that moment |
| `ControllerRuns.OutcomesWereAsked` | src/omegaflow/envoy_controller.py:123-182 | a cancelled or finalized result is accepted only for a request with the same reason, written whole for that operation, with no operation executed since |
| `ControllerRuns.ResizesAreAnswered` | src/omegaflow/envoy_controller.py:99-105 | in every run the resize acknowledgements accepted are, in order and with their dimensions, those of the first resize requests written; until the drain at most one is waiting |
| `ControllerRuns.PendingAfter` | src/omegaflow/envoy_controller.py:99-132 | a resize becomes pending only when it was written, and only with none pending |
| `ControllerRuns.SubmitKeeps` | src/omegaflow/envoy_controller.py:79-134 | requests keep the controller invariant, refused, lost or written |
| `ControllerRuns.PullKeeps` | src/omegaflow/envoy_controller.py:231-247 | a read keeps it up to the one result the client has seen and the desk has not |
| `ControllerRuns.ResultKeeps` | src/omegaflow/envoy_controller.py:170-182 | accepting a result hands over exactly that one |
| `ControllerRuns.ReceivedKeeps` | src/omegaflow/envoy_controller.py:213-265 | a whole receive, with deadlines before and after its read, keeps the invariant |
| `ControllerRuns.Run` | src/omegaflow/envoy_controller.py:40-276 | from every ready pair, beside whatever operation and failure the session holds, every interleaving of requests, input, releases, receives and public failures keeps the invariant |
| `Controller.FailingTwice` | src/omegaflow/envoy_controller.py:118-262 | reporting a failure again changes neither the session nor its effects |
| `Controller.EnvoyController.Assemble` | src/omegaflow/envoy_controller.py:40-61 | a controller exists exactly on a ready pair whose readiness the public lifecycle was waiting for |
| `Controller.EnvoyController.ResultAvailable` | src/omegaflow/envoy_controller.py:67-70 | a result is available exactly when a take would release it |
| `Controller.EnvoyController.TakeResult` | src/omegaflow/envoy_controller.py:67-77 | releases the owned result exactly when no failure is latched and its raw range is retained |
| `Controller.EnvoyController.MakeRequest` | src/omegaflow/envoy_controller.py:79-134 | only a fully written request is remembered; a lost pair fails and disposes the session |
| `Controller.EnvoyController.CheckAnswer` | src/omegaflow/envoy_controller.py:145-176 | a result must answer the authored inspections and the selected reason |
| `Controller.EnvoyController.AcceptResult` | src/omegaflow/envoy_controller.py:170-182 | an accepted result is owned, and clears the gate, the deadline and the plan |
| `Controller.EnvoyController.AcceptDraining` | src/omegaflow/envoy_controller.py:186-194 | draining is taken once, drops pending resizes and the deadline, and passes on an earlier terminal EOF |
| `Controller.EnvoyController.HandleEvent` | src/omegaflow/envoy_controller.py:156-198 | each event takes its own branch on the operation and the desk |
| `Controller.EnvoyController.SettleFact` | src/omegaflow/envoy_controller.py:200-256 | a fact is handled before the EOF barrier and the closing check |
| `Controller.EnvoyController.CancelWhenDue` | src/omegaflow/envoy_controller.py:228-244 | a due deadline selects one cancel of the active operation |
| `Controller.EnvoyController.BeginInput` | src/omegaflow/envoy_controller.py:136-143 | an input refusal fails the session only when the pair is gone |
| `Controller.EnvoyController.EndInput` | src/omegaflow/envoy_controller.py:136-143 | a lost input write fails and disposes the session |
| `Controller.EnvoyController.Receive` | src/omegaflow/envoy_controller.py:213-265 | one receive takes exactly the specified step, drain and operation deadlines included, and any failure is latched and disposes the pair |
| `Capture.NumberedWorkFinishes` | src/omegaflow/capture.py:648-664 | if stream order, joins and output dependencies have a topological numbering, every reachable state whose runners reported their actions can be finished: no deadlock |
| `Deadlock.ReportedRunFinishes` | src/omegaflow/capture.py:648-913 | from wherever a run has got to in which no runner left a report out, numbered work can be finished |
| `Deadlock.StuckExactly` | src/omegaflow/capture.py:648-783 | numbered work that has not failed is stuck exactly when some stream is unfinished and each such stream waits for an event whose report was left out, or for a stream that so waits |
| `Deadlock.PassedOverWasSkipped` | src/omegaflow/capture.py:733-783 | in a run from the start, an event gone past unset is one whose report was left out on the way |
| `Deadlock.LeftOutReportSticks` | src/omegaflow/capture.py:648-783 | a plan of two panes that can be numbered, and a run of it that is stuck after one report was left out |
| `Capture.SomethingMoves` | src/omegaflow/capture.py:648-783 | in such a state some thread has an enabled step |
| `Capture.Unblock` | src/omegaflow/capture.py:744-773 | a blocked wait leads back to a stream that can move |
| `Capture.FailureReleasesWaits` | src/omegaflow/capture.py:660-664 | once capture has failed no stream stays blocked in a coordination wait |
| `Capture.EveryRunEnds` | src/omegaflow/capture.py:880-913 | no run, however scheduled and whatever fails, is longer than a measure of the remaining work |
| `Capture.ReturnShowsNumbering` | src/omegaflow/capture.py:648-783 | a capture that once returned normally shows a topological numbering of its work |
| `Capture.OneReturnMeansNoDeadlock` | src/omegaflow/capture.py:648-913 | deadlock does not depend on the schedule: if one schedule returns, none can be stuck |
| `Capture.TeardownWaitsForCapture` | src/omegaflow/capture.py:844-912 | no runner closes and no cleanup begins before every stream has finished capturing, unless capture failed |
| `Capture.ReturnIsComplete` | src/omegaflow/capture.py:825-927 | a normal return means that every recorded beat has a result and the events it needs |
| `Capture.PlanReturnIsComplete` | src/omegaflow/capture.py:733-927 | for a plan of panes, beats and actions: a normal return gives every beat its result and sets both events of each action |
| `Capture.RaisesTheFirstFailure` | src/omegaflow/capture.py:630-636 | a capture raises exactly when a stream failed, and then the first failure recorded |
| `Capture.FirstStays` | src/omegaflow/capture.py:630-636 | the first recorded failure is never replaced |
| `Capture.RunKeeps` | src/omegaflow/capture.py:696-913 | every schedule keeps recording, barrier, failure and outcome invariants |
| `Progress.Reporter.Report` | src/omegaflow/capture.py:488-519 | a report is accepted exactly for a known action, started once, completed once and only after starting |
| `Progress.EachOnce` | src/omegaflow/capture.py:501-518 | no action is started or completed twice |
| `Progress.CompletedAfterStarted` | src/omegaflow/capture.py:507-512 | every completed action was started by an earlier accepted report |
| `Progress.SetsAreAccepted` | src/omegaflow/capture.py:480-518 | the started and completed sets are exactly the accepted reports |
| `Progress.RunSound` | src/omegaflow/capture.py:480-519 | the count is the number of completed actions, all of them started and known |
| `Alignment.MatchStart` | src/omegaflow/browser_visuals.py:662-737 | the streaming start search equals its closed form for every frame sequence |
| `Alignment.MatchEnd` | src/omegaflow/browser_visuals.py:777-847 | the streaming end search equals its closed form for every frame sequence |
| `Alignment.StartIsARun` | src/omegaflow/browser_visuals.py:694-727 | a start exists exactly when the footage holds three matching frames in a row, and is the beginning of such a run |
| `Alignment.PreferredStartIsNearest` | src/omegaflow/browser_visuals.py:698-716 | with the reference preferred, the chosen run is the last one at or before the reference, otherwise the first after it |
| `Alignment.LatestStartIsLast` | src/omegaflow/browser_visuals.py:702-716 | without it, the last run wins |
| `Alignment.StartBounds` | src/omegaflow/browser_visuals.py:621-737 | a start lies at most the lookback before the requested one, its confirming run ends within the footage searched, and it is past the requested start only when no run begins by then (reference preferred) or one begins later (latest preferred) |
| `Alignment.EndBounds` | src/omegaflow/browser_visuals.py:805-847 | the end is at or before the minimum exactly when a precise lookback frame is, and otherwise at a stable run past it |
| `Alignment.FinalizeFragments` | src/omegaflow/browser_visuals.py:273-343 | fragments are cut in order, each against the end of the one before it, up to the first that has none |
| `Alignment.FragmentsAreContiguous` | src/omegaflow/browser_visuals.py:303-343 | finished fragments have positive length, a continued one starts exactly where its predecessor ended, implicit ones keep the time limit, and ends stay within the lookback |
| `Narration.TimeKeepsOrder` | src/omegaflow/audio.py:639-657 | later text is never earlier in the recording, and always within it |
| `Narration.TimeInBounds` | src/omegaflow/audio.py:649-657 | interpolation stays within its word and meets both ends |
| `Narration.ResolveWait` | src/omegaflow/audio.py:660-683 | the single pass with one remembered word equals its closed form |
| `Narration.WaitsKeepOrderExactly` | src/omegaflow/audio.py:660-683 | waits keep the order of the text if and only if no stray text stands before a real silence |
| `Narration.CoveredTextIsNotStray` | src/omegaflow/audio.py:660-683 | words that cover all visible text leave none of it stray |
| `Narration.StrayDashReversesWaits` | src/omegaflow/audio.py:668-683 | a concrete text in which the order fails |
| `Narration.WaitBounds` | src/omegaflow/audio.py:660-683 | a wait lies between the words around it, and within the take |
| `Sidecar.CheckWords` | src/omegaflow/audio.py:696-760 | words pass exactly when each fits the text and follows the one before it in text and time |
| `Sidecar.Generate` | src/omegaflow/audio.py:686-819 | a sidecar is generated exactly when the words fit and everything can be timed, with each member, anchor and wait at its own time |
| `Sidecar.TimeMembers` | src/omegaflow/audio.py:762-783 | members run from zero to the duration, inner boundaries at their text |
| `Sidecar.TimeWaits` | src/omegaflow/audio.py:795-809 | each wait is timed in its silence |
| `Sidecar.Validate` | src/omegaflow/publish.py:566-656 | the publisher accepts exactly the sidecars whose members, words and markers meet its rules |
| `Sidecar.ValidateWords` | src/omegaflow/publish.py:596-639 | each word needs an owning member, one of three traces, its own text and its place in order |
| `Sidecar.ValidateMarkers` | src/omegaflow/publish.py:641-656 | each marker needs its member and its place in order |
| `Sidecar.GeneratedIsAccepted` | src/omegaflow/publish.py:566-656 | every generated sidecar of a well-formed take is accepted by the publisher |
| `Sidecar.AcceptedExactly` | src/omegaflow/publish.py:566-656 | on members laid out in order, the publisher accepts a generated sidecar exactly when words and markers are placed and named and the resolved times of neighbouring markers do not fall |
| `Sidecar.RecordThenPublish` | src/omegaflow/audio.py:686-819 | generation and validation in turn: what is made is accepted exactly if it is publishable, well formed or not |
| `Sidecar.AcceptedIsWellFormed` | src/omegaflow/publish.py:596-656 | whatever is accepted, generated or not, meets the conditions on words and on marker placement |
| `Presentation.ValidateIntervals` | src/omegaflow/presentation.py:857-925 | an audio map is accepted exactly when its stretches come in source order with a shift that is never negative and never falls, and end at the narration and playback ends |
| `Presentation.NeighboursDecide` | src/omegaflow/presentation.py:882-917 | the check of neighbours decides the property of all pairs |
| `Presentation.AudioKeepsOrder` | src/omegaflow/presentation.py:857-917 | an accepted map presents the narration in order, never early, and with delays that never shrink |
| `Presentation.ValidateLayout` | src/omegaflow/presentation.py:1137-1213 | a layout is accepted exactly when it is a regular grid of known panes within the limits, each pane a rectangle |
| `Presentation.CheckPane` | src/omegaflow/presentation.py:1196-1213 | a pane passes exactly when its cells are one rectangle |
| `Presentation.BoxDecides` | src/omegaflow/presentation.py:1196-1213 | a pane is a rectangle exactly when its bounding box shows nothing else |
| `Presentation.CheckAreas` | src/omegaflow/presentation.py:1145-1175 | rows, panes and the item limit are checked cell by cell |
| `Presentation.LayoutIsTiling` | src/omegaflow/presentation.py:1196-1213 | every cell of an accepted layout lies in exactly one box, that of its own pane |
| `Presentation.BoxesAreDisjoint` | src/omegaflow/presentation.py:1196-1213 | boxes of different panes are disjoint, and one pane has only one |

## Left out

- Failure and exception messages: a failure keeps its code, the active operation, the gate and the lifecycle state.
- JSON text, Unicode, identifiers by regular expression and schema checks of both codecs: a frame parses by an
  abstract partial function whose events satisfy the cross-field rules of `validate`; a request is encoded by another.
- Sockets, asyncio tasks, address resolution and connection set-up: reads and write outcomes are inputs of each step;
  a control write is one step with the state changes around it, a terminal write is two steps.
- Clocks: an expired deadline is an input. The write, connect and readiness timers appear only as failed writes or
  receives.
- Operation deadlines that are no finite future time, payloads that are no objects and inspection identities chosen by
  the caller, which the controller refuses before it does anything else.
- fsync, file identity checks and seek positions of the raw log, beyond its length.
- The check of the two event and stderr sinks' identity at construction: a precondition here.
- Fields of events that the controlled session does not read (working directory, process identifiers, exit status, stream names).
- Browser handoffs in `capture.py` (broker files, cancellation of runners by the coordinator) and the sequential,
  pane-less capture path; a runner cancelled by the coordinator is one that may fail or finish at any moment.
- Capture is modelled on values, not as a class: its state is shared by closures running in threads, and every
  interleaving of their steps is what is modelled. Condition timeouts of 50 ms are not.
- The join graph of a recording plan is a hypothesis: a topological numbering, or one schedule that returns.
- `CaptureFailureCollector`: only first-failure selection among pane streams is modelled.
- Pixel scores, thresholds and ffmpeg: each frame arrives judged as matching or precise, and each cut as encoded or not.
- Floating point: interpolation is over exact rationals, with Python's half-even rounding.
- White space is a parameter of the narration model.
- Members, words and markers are typed; JSON types, unknown fields and file signatures of the manifest and the sidecar
  are not modelled, nor are the take boundaries and playback files of the audio metadata.
- Pane tracks, beats and events of the manifest outside the audio map and the layout grid.
- Sidecar.AcceptedIsWellFormed: says nothing about the order of markers in the text, because the publisher checks only
  their times; for generated sidecars `Sidecar.AcceptedExactly` says what that amounts to.
- Capture.NumberedWorkFinishes: is about states whose runners reported the actions they passed; the other states are
  those of `Deadlock.StuckExactly`.
