# Verified models of the agent-session runtime

This project models the concurrent core of the `agentsessions` package and proves what it
promises over unbounded runs. Four components are covered, and each is done twice: once as
something that interleaves (a value state machine whose steps are the source's lock regions and
the gaps between them) or as a function of everything the environment can do, and once in place,
as a class whose methods carry out the same lock regions on mutable fields and are proved equal
to those steps.

- **JSON-RPC client** (`jsonrpc_stdio_session.go`). `RpcProtocol` interleaves any number of
  calls, the reader, Stop, the waiter and the respawner; `RpcInvariant`, `RpcTheorems`,
  `RpcOutcomes` and `RpcDrain` prove channel discipline, correlation, how a call can end and what
  a drain achieves. `RpcRouting` says
  what the reader does with each line; `RpcClient` is the pending map, its lock regions and the
  reader loop in place.
- **Attach broker** (`attach.go`). `BrokerSpec` holds the transitions beside the full history of
  bytes written; `BrokerTheorems` proves that the ring, the replays, the queues and the drop
  counter agree with that history, `BrokerDepth` how much a subscriber may leave unread.
  `AttachBroker` is the broker in place over a backing array.
  `ResumeClient` follows a client through any number of disconnects and resumes, `ResumeLoss`
  says what one that missed bytes can still get; `CopyStream` is the pump between a subscription
  and a writer.
- **Supervised restart loop** (`pty_session.go`, `supervision.go`; the loop in
  `jsonrpc_stdio_session.go` is the same). `SupervisedRun` is the run as a function of the
  environment, `SupervisedSession` the imperative loop proved to produce that run, and
  `SupervisedTheorems` an independent observer that accepts every run and what follows from it.
  `ExitStatus`, `IdleTimer` and `Backoff` are its parts; `PtyHandle` is the protocol around the
  terminal master, `PtyInput` the two ways of writing to it in place, and `PtyLines` what the
  child reads of them line by line.
- **Manager** (`manager.go`). `ManagerProtocol` interleaves Starts, watches, Stops, attaches,
  waiters and Shutdowns; `ManagerInvariant`, `ManagerEveryRun`, `ManagerTheorems` and
  `ManagerShutdown` prove what callers can rely on, `ManagerHistory` that every caller, session and
  watch is exactly as far as its own steps and finds what its id names; `ManagerIds` and `ManagerDuplicates` say which
  of it needs live ids to be distinct, and why. `SessionManager` is the registry in place.

Check it with `dafny verify dfyconfig.toml`.

## How to read it

A run is a sequence of steps, each enabled where it is taken; a theorem about "every
interleaving" quantifies over all runs from the initial state. Locks are modelled by making a
lock region one step. What the program cannot decide is a parameter: exits, parsed session ids,
when Stop happens, which arm of a ready `select` is taken, hook results, write errors. Ghost
parameters named `s` or `t` tie a method to the protocol state it acts on. Times are integers in
nanoseconds; byte offsets and ids are unbounded, and only the backoff uses 64-bit arithmetic.

## Where the code differs from what one might expect

- The reader's doc comment (`jsonrpc_stdio_session.go:338-343`) says a frame with an `id` is a
  response. The code looks at `method` first, so a frame with both is a server request. The model
  follows the code.
- A frame with `"id": null` decodes to a frame without an id, so a request with a null id is
  treated as a notification and gets no response.
- A call that registers after every drain it will ever see has run is answered by nobody and
  returns only on its own context (`RpcDrain.LateCallIsStranded`). Exactly: a call blocked in its
  select can no longer be answered, short of a respawn, if and only if the reader has exited, Stop
  has drained and the call is in the map (`RpcDrain.AnswerableIffNotStranded`).
- Resuming by byte count is exact until a replay starts from an evicted resume point or a chunk is
  delivered past a dropped one (`ResumeClient.ResumeIsExact`); a client that leaves before that
  resumes exactly. After such a delivery the byte count is behind the stream: the first dropped
  byte is never delivered (`ResumeLoss.FirstDroppedByteIsLost`), a missed byte is lost for good
  exactly when it lies before the start of the next resume
  (`ResumeLoss.LostExactlyBeforeResumeStart`), and a resume repeats a byte exactly when the client
  already holds one from there on (`ResumeLoss.ResumeAfterGap`).
- An input reads as a line of its own exactly when it contains no newline and nothing before it on
  the master was left unfinished (`PtyLines.InputIsOneLine`). The raw boot prompt and a failed
  write leave a line unfinished exactly when the last byte they put there is not a newline
  (`PtyLines.WhenClean`); the next input then reads as the end of that line
  (`PtyLines.RawPromptMerges`).
- After Stop one more child is spawned exactly when Stop is seen neither by the check after the
  attempt nor by the backoff select, and the respawn works (`SupervisedTheorems.StopEndsTheLoop`);
  Stop during backoff can lose the race with the timer in that way
  (`SupervisedTheorems.StopCanLoseTheBackoffRace`).
- Backoff is `min(2^(attempt-1) s, cap)` exactly when the attempt is at most 30 or the cap at most
  2^(attempt-1) s; otherwise, from attempt 31, it is the cap itself
  (`Backoff.BackoffIsCappedDoubling`, `Backoff.ClosedFormFailsAboveTheBound`).
- The watchdog and the idle supervisor poll separately, and the cause is that of the earlier claim
  (`IdleTimer.CauseOfTwo`). One of the two causes is impossible if and only if its threshold exceeds
  the other by the other one's polling period; with any smaller difference, the longer threshold
  can come first (`IdleTimer.WhichCauseIsImpossible`).
- Starting a second session under an id in use is not refused; it loses the earlier session's
  result for good (`ManagerIds.OverwrittenIsLost`). When all watches have signed off, some result
  has been closed a second time, which panics, if and only if this has happened
  (`ManagerDuplicates.ClosedTwiceIffDuplicate`).
- Every Shutdown but the first returns at once. All sessions have then been seen to their end if
  and only if the wait group is empty (`ManagerShutdown.LaterShutdownFindsAllDoneIff`,
  `ManagerIds.LaterShutdownDoesNotWait`).

## Model

| member | source | states |
|---|---|---|
| RpcTheorems.ChannelDiscipline | agentsessions/jsonrpc_stdio_session.go:423-440 | in every interleaving each response channel has one remover, its send finds an open empty slot, it is closed once and after its send, and no blocked call reads a closed empty channel |
| RpcTheorems.AnswersAreCorrelated | agentsessions/jsonrpc_stdio_session.go:855-912 | a returned response was brought by the run after the call registered: by a frame with the id it allocated, across respawns, or by a drain with that drain's own error; a result without an error only by such a frame; ids are never shared |
| RpcTheorems.DrainTakes | agentsessions/jsonrpc_stdio_session.go:485-494 | reader exit and Stop's sweep each take exactly the calls in the map, with code -32000 and their own words |
| RpcTheorems.StrayFrameIgnored | agentsessions/jsonrpc_stdio_session.go:423-437 | a frame leaves the client unchanged if and only if its id does not decode or no call with that id is in the map; and a call is in the map exactly when it has registered, is not settled and is in no remover's hands |
| RpcTheorems.MatchingFrameDelivers | agentsessions/jsonrpc_stdio_session.go:429-439 | a frame with a registered call's id can be carried to the end by the reader's own three steps: that channel holds the payload and is closed, its entry is gone, the other entries are untouched |
| RpcTheorems.MatchingFrameArrives | agentsessions/jsonrpc_stdio_session.go:429-439 | with everybody else's steps in between: ever after, the reader's send of that payload is still possible, or the payload is in the channel, or the call has returned it |
| RpcTheorems.EntryIsLive | agentsessions/jsonrpc_stdio_session.go:860-871 | an id in the map is allocated and belongs only to a call that has neither returned nor been answered |
| RpcOutcomes.CallIsSent | agentsessions/jsonrpc_stdio_session.go:855-900 | while the session is alive and stdin open, a new call gets its request out under the next id: filed under it with a fresh channel, nothing else changed |
| RpcOutcomes.GivesUpCleanly | agentsessions/jsonrpc_stdio_session.go:873-911 | where its context ends, its params do not encode, there is no stdin or the write fails, a call returns with exactly that outcome, its id is gone, and every other call, entry and channel is as before |
| RpcOutcomes.OutcomeHasItsCause | agentsessions/jsonrpc_stdio_session.go:855-912 | in every run at most one thing ends a call and what it returns is that thing: cancelled, unencodable or unwritable exactly if that step is in the run |
| RpcOutcomes.CallStepsPossible | agentsessions/jsonrpc_stdio_session.go:855-912 | each step of each call is possible exactly when its predecessor was taken and nothing has ended it there |
| RpcOutcomes.ReadsItsAnswer | agentsessions/jsonrpc_stdio_session.go:902-907 | a response that was sent to a waiting call can be read at once, as it was sent |
| RpcOutcomes.NobodyEntersAfterStop | agentsessions/jsonrpc_stdio_session.go:856-858 | a call is admitted exactly until Stop begins or the session dies, and none afterwards |
| RpcOutcomes.RespawnServesAgain | agentsessions/jsonrpc_stdio_session.go:290-297 | once the reader has drained and gone, a respawn is always possible and touches no call, entry or channel |
| RpcInvariant.InvStep | agentsessions/jsonrpc_stdio_session.go:423-494 | every step keeps the ownership invariant: map, removers' hands and callers never share a channel |
| RpcInvariant.InvRun | agentsessions/jsonrpc_stdio_session.go:855-912 | the ownership invariant holds in every reachable state |
| RpcInvariant.IdStep | agentsessions/jsonrpc_stdio_session.go:859-863 | ids are distinct and handed out consecutively, each above all those before it |
| RpcInvariant.Removable | agentsessions/jsonrpc_stdio_session.go:429-433 | whatever a removal takes from the map was registered under its own id by a call still in flight, with an untouched channel |
| RpcDrain.DrainResolves | agentsessions/jsonrpc_stdio_session.go:485-494 | ever after a drain's map swap, each call registered before it has exactly one fate: given one outcome, held by exactly one remover about to send, or withdrawn by its caller |
| RpcDrain.RemovedIsResolved | agentsessions/jsonrpc_stdio_session.go:423-440 | a call out of the map has exactly one fate |
| RpcDrain.RemovedForever | agentsessions/jsonrpc_stdio_session.go:859-863 | a call out of the map never gets back in |
| RpcDrain.NoLeakedEntry | agentsessions/jsonrpc_stdio_session.go:865-869 | every id in the map belongs to a call that has not returned |
| RpcDrain.AnsweredIffRemoved | agentsessions/jsonrpc_stdio_session.go:902-911 | with no removal under way, a call blocked in its select has its answer if and only if its entry has been removed |
| RpcDrain.NextOwnStep | agentsessions/jsonrpc_stdio_session.go:490-493 | a remover with work left has an enabled step of its own, whatever the callers do |
| RpcDrain.DrainCompletes | agentsessions/jsonrpc_stdio_session.go:490-493 | a remover can always finish by its own steps, exactly one send and one close for each channel it holds |
| RpcDrain.StopReleasesEveryone | agentsessions/jsonrpc_stdio_session.go:771-789 | after Stop's drain every call blocked in its select has its answer or is held by the reader about to send, unless a respawn slipped past Stop's snapshot of the pipe |
| RpcDrain.StrandedStays | agentsessions/jsonrpc_stdio_session.go:902-911 | a call in the map once the reader has exited and Stop has drained stays blocked until its context ends or another respawn, whatever the removers are still busy with |
| RpcDrain.AnswerableIffNotStranded | agentsessions/jsonrpc_stdio_session.go:902-911 | a call blocked in its select can be answered without a respawn if and only if it is not in that situation |
| RpcDrain.LateCallIsStranded | agentsessions/jsonrpc_stdio_session.go:855-863 | such a call exists: a concrete run |
| RpcRouting.RoutedExactlyOnce | agentsessions/jsonrpc_stdio_session.go:399-411 | a line writes, forwards or resolves, at most one of these and for at most one call; and it does none of them exactly when it is junk, an unserved request, or a response whose id is not an integer or was answered before |
| RpcRouting.RoutedInOrder | agentsessions/jsonrpc_stdio_session.go:399-411 | of two served requests the earlier is answered first, of two notifications the earlier is forwarded first, and a response is final for its call |
| RpcRouting.LineEffect | agentsessions/jsonrpc_stdio_session.go:399-411 | line by line, from the frame alone: method and id is answered under that id at the next place in the output, method alone is forwarded, id alone resolves that call unless an earlier response did, and nothing else happens |
| RpcRouting.OneAnswerPerRequest | agentsessions/jsonrpc_stdio_session.go:451-480 | while stdin is live and results encode: one response per server request, in order, with the id echoed, carrying the hook's outcome, or without a hook error -32601 naming the method |
| RpcRouting.WrittenLength | agentsessions/jsonrpc_stdio_session.go:469-478 | there are as many responses as requests exactly when every request's response encodes and finds a live stdin |
| RpcRouting.FirstAnswerIsFirst | agentsessions/jsonrpc_stdio_session.go:423-440 | a waiting call is handed the first response frame with its id, and nothing if there is none |
| RpcRouting.OnlyRepliesResolve | agentsessions/jsonrpc_stdio_session.go:392-411 | requests and notifications cannot resolve a call, whatever id they carry |
| RpcClient.Client.Begin | agentsessions/jsonrpc_stdio_session.go:856-863 | refused once stopped; otherwise a fresh id and channel, filed and nothing else changed |
| RpcClient.Client.Cleanup | agentsessions/jsonrpc_stdio_session.go:865-869 | removes the caller's own entry |
| RpcClient.Client.DeliverResponse | agentsessions/jsonrpc_stdio_session.go:423-440 | settles exactly the channel filed under the id; map and hands are those of the protocol's routing step |
| RpcClient.Client.FailPending | agentsessions/jsonrpc_stdio_session.go:485-494 | empties the map and settles with the given error exactly the channels the protocol's drain takes |
| RpcClient.Client.SettleAll | agentsessions/jsonrpc_stdio_session.go:490-493 | the loop over the swapped-out map, in any order: no send blocks, no close is repeated |
| RpcClient.Client.RespondToServerRequest | agentsessions/jsonrpc_stdio_session.go:451-480 | writes the one response the routing functions prescribe, or nothing |
| RpcClient.Client.HandleLine | agentsessions/jsonrpc_stdio_session.go:358-411 | logs the line and does exactly one of answer, forward, deliver, ignore |
| RpcClient.Client.RunReaderLoop | agentsessions/jsonrpc_stdio_session.go:344-417 | the whole loop: log, responses and notifications are those of the lines, and every call waiting at its start is settled with the first response for it or with the reader's farewell |
| BrokerTheorems.RingAgreesWithHistory | agentsessions/attach.go:95-181 | after any operations the ring is the last bytes ever written, as many as asked for or 65536, and for every integer sinceSeq the replay is the history from max(sinceSeq, ringStart): empty at or past the head, the whole ring when evicted |
| BrokerDepth.UnreadHoldsItsDepth | agentsessions/attach.go:201-204 | from the arguments alone: an unread subscription holds the first D chunks written since it began and drops exactly the rest, where D is the depth asked for, else the broker's, else 64 |
| BrokerDepth.ReadsInOrder | agentsessions/attach.go:126-134 | reading takes the oldest chunks first and changes nothing but the reader's own channel |
| BrokerTheorems.ReplayIsHistorySuffix | agentsessions/attach.go:147-166 | a replay from the ring is the matching suffix of the history |
| BrokerTheorems.AppendRingKeepsSuffix | agentsessions/attach.go:170-181 | appending to the ring and appending to the history agree, also for chunks larger than the ring |
| BrokerTheorems.HistoryIsWritten | agentsessions/attach.go:114-124 | the history is the concatenation of the accepted writes |
| BrokerTheorems.SubscriberConservation | agentsessions/attach.go:126-134 | per subscriber, bytes queued or received plus bytes dropped are the bytes written while subscribed; accepted chunks are in order; the queue stays within its depth; dropCnt is the sum of drops over all subscribers ever |
| BrokerTheorems.SlowSubscriberIsIsolated | agentsessions/attach.go:126-134 | two runs that differ only in when one subscriber reads end with the same ring, history and other channels |
| BrokerTheorems.ChannelClosedOnce | agentsessions/attach.go:221-230 | a channel is open exactly while its id is registered and is closed once; after that nothing is offered to it and it is never closed again, whatever follows; a cancel closes no other channel |
| BrokerTheorems.CloseIsFinal | agentsessions/attach.go:237-248 | after close, over every continuation: ring, history and counters never change again, nobody is registered, every old channel only drains, and every later subscriber gets the full replay on a closed channel |
| BrokerTheorems.LateSubscriber | agentsessions/attach.go:207-214 | a subscriber gets the replay for its offset and disturbs no other channel, and on a closed broker its channel is closed already and never registered |
| BrokerTheorems.StepKeepsInv | agentsessions/attach.go:72-93 | every operation keeps the broker's invariant |
| BrokerTheorems.WriteDrops | agentsessions/attach.go:128-134 | a write adds its length to the drop total once per full subscriber |
| AttachBroker.Broker.constructor | agentsessions/attach.go:95-108 | a new broker, with the defaults for non-positive sizes |
| AttachBroker.Broker.AppendRingInPlace | agentsessions/attach.go:170-181 | the slice operations on the backing array compute the specified ring |
| AttachBroker.Broker.Append | agentsessions/attach.go:180-180 | Go's append: in place while the capacity lasts, else into a new array |
| AttachBroker.Broker.PublishLoop | agentsessions/attach.go:128-134 | the loop over subscribers, in any order, offers the chunk to each once and counts each drop |
| AttachBroker.Broker.Write | agentsessions/attach.go:114-137 | the whole new state is the specified one; length and error as returned |
| AttachBroker.Broker.SubscribeSince | agentsessions/attach.go:201-232 | the whole new state is the specified one; replay and channel as returned |
| AttachBroker.Broker.Cancel | agentsessions/attach.go:221-230 | unregisters and closes the caller's own channel, or changes nothing |
| AttachBroker.Broker.Close | agentsessions/attach.go:237-248 | closes every live channel once and marks the broker closed |
| AttachBroker.Channel.TrySend | agentsessions/attach.go:129-133 | the non-blocking send: queued if there is room, else refused |
| ResumeClient.ResumeIsExact | agentsessions/attach.go:201-232 | over any number of disconnects and resumes by byte count the client holds exactly a prefix of the history, without gap or duplicate, if and only if no delivery crossed a drop or an evicted resume point |
| ResumeClient.CutAnywhere | agentsessions/attach.go:252-271 | at any moment the writer holds a prefix of the replay followed by the chunks queued for it |
| ResumeClient.ActKeeps | agentsessions/attach.go:114-137 | everything the client and the broker's other users do keeps the correspondence with the history |
| ResumeLoss.ResumeAfterGap | agentsessions/attach.go:147-166 | a resume delivers the history from its start on: a missed byte exactly when it lies there, and one twice exactly when the client already holds a byte from there |
| ResumeLoss.LeaveAndResume | agentsessions/attach.go:252-271 | an attached client can leave at any moment with what it has and resume from its count |
| ResumeLoss.EveryCutIsPossible | agentsessions/attach.go:252-271 | the writer may take any part of a replay or chunk: less than all ends the attachment with just that part held |
| ResumeLoss.LostExactlyBeforeResumeStart | agentsessions/attach.go:201-232 | a byte that a detached client does not hold is never delivered in any continuation if and only if it lies before the start of the next resume |
| ResumeLoss.FirstDroppedByteIsLost | agentsessions/attach.go:128-134 | the first delivery past a drop puts the last position at or beyond the byte count, and the first dropped byte is then delivered in no continuation |
| ResumeLoss.SomeDroppedBytesCome | agentsessions/attach.go:128-134 | a concrete run from the start reaches such a delivery; after it a resume brings the later dropped bytes, repeats one byte and leaves the first dropped byte out |
| CopyStream.CopyStream | agentsessions/attach.go:252-271 | the pump writes the replay and then the chunks in order, up to a write error, and ends for the stated reason |
| CopyStream.EndsAtFirstOther | agentsessions/attach.go:258-269 | it stops at the first pick that is no chunk: end of stream exactly for the drained and closed channel, the context's error exactly for the context |
| SupervisedTheorems.SupervisedRunIsLegal | agentsessions/pty_session.go:484-577 | every run satisfies the observer: one child at a time, reaped, closed, joined and cleaned up in that order before the next spawn, backoff and OnRestart in between, one result published last |
| SupervisedTheorems.SpawnAccounting | agentsessions/pty_session.go:484-577 | at most max(0, RestartOnCrash)+1 spawns; at every moment at most one child unreaped and one uncleaned; each waited on and cleaned up once; OnRestart receives 1..n in order; one publication |
| SupervisedTheorems.SpawnsExactly | agentsessions/pty_session.go:489-576 | the exact number of children: restarts go on as long as attempts call for one, up to max(0, RestartOnCrash), and no less far |
| SupervisedTheorems.CrashesUseTheBudget | agentsessions/pty_session.go:489-576 | if every attempt crashes unclaimed with no Stop and no failed respawn: max(0, RestartOnCrash)+1 children, OnRestart with 1..max(0, RestartOnCrash), and restart_exhausted with the last child's exit |
| SupervisedTheorems.ExitClassification | agentsessions/pty_session.go:531-573 | the published error is nil exactly when the last attempt was clean; its cause is restart_exhausted exactly when a respawn failed (then it carries the spawn error) or the last attempt, number max(0, RestartOnCrash), crashed with Stop not seen (then it keeps the rest of that exit); else it is the last attempt's own exit, which is an unclaimed crash only if Stop was called |
| SupervisedTheorems.ResumeKeepsConversation | agentsessions/pty_session.go:274-286 | with the capability, each respawn resumes with the last non-empty id parsed in all earlier attempts, including what the reader drained after the reap, or the preset; otherwise always the preset |
| SupervisedTheorems.StopEndsTheLoop | agentsessions/pty_session.go:541-564 | wherever Stop or cancellation falls, exactly one further spawn follows if neither the check after the attempt nor the backoff select sees it and the respawn works, else none; and one further OnRestart exactly when it comes during backoff and the timer wins |
| SupervisedTheorems.StopCanLoseTheBackoffRace | agentsessions/pty_session.go:558-564 | a concrete run in which one spawn and one OnRestart follow a Stop |
| SupervisedTheorems.FollowRun | agentsessions/pty_session.go:524-576 | from the top of any attempt the rest of the loop is legal, sleeps exactly the backoff schedule and ends classified as stated |
| SupervisedTheorems.ObservedCounts | agentsessions/pty_session.go:524-576 | what acceptance by the observer implies for the number of spawns, waits, cleanups and publications |
| SupervisedSession.PtySession.RunSupervised | agentsessions/pty_session.go:484-577 | the imperative loop produces exactly the specified run, publishes its exit with the matching code, and every exit handed to OnRestart still has an empty cause at the end |
| SupervisedSession.PtySession.Loop | agentsessions/pty_session.go:524-576 | the for-loop, up to the published result |
| SupervisedSession.PtySession.WaitOnceSupervised | agentsessions/pty_session.go:583-671 | one attempt: reap, clear and close the master, join the reader, then classify |
| SupervisedSession.PtySession.Respawn | agentsessions/pty_session.go:573-592 | backoff, OnRestart, respawn, and the failure exit if that fails |
| SupervisedSession.PtySession.SpawnAttempt | agentsessions/pty_session.go:280-286 | installs the new master and records the spawn with its resume id |
| SupervisedSession.PtySession.ReadIds | agentsessions/pty_session.go:392-402 | the stored session id is the last non-empty one parsed |
| ExitStatus.FateRecovered | agentsessions/supervision.go:229-254 | the exit error gives back what became of the child (its code, its signal, a failed output copy, a failed wait) with the code the child had or -1, and the supervisor's claim; there is none exactly for an unclaimed success, and a restart follows exactly for an unclaimed crash |
| SupervisedTheorems.PublishedExitTellsTheFate | agentsessions/pty_session.go:531-573 | over the whole run: Wait's error is nil exactly when the last child succeeded unclaimed, otherwise it gives back that child's fate unless a respawn failed, and every earlier child crashed unclaimed |
| ExitStatus.SupState.TrySetCause | agentsessions/supervision.go:285-293 | the first claim wins and later ones change nothing |
| ExitStatus.RaceClaims | agentsessions/pty_session.go:710-756 | of all supervisors that claim, the first alone acts and names the cause |
| IdleTimer.SuperviseIdle | agentsessions/pty_session.go:697-722 | the polling loop tries to claim at the first tick at which the session has been idle for the threshold, and never otherwise; it acts exactly if the other supervisor has not claimed before |
| IdleTimer.CauseOfTwo | agentsessions/pty_session.go:610-627 | with both supervisors on one activity log, each with a ticker start of its own: the cause is that of the earlier claim, and its claimant alone acts |
| IdleTimer.WhichCauseIsImpossible | agentsessions/pty_session.go:697-756 | for all thresholds: a cause can be ruled out over every activity log, ticker start and lock order if and only if its threshold exceeds the other by max(the other / 4, 100 ms) |
| IdleTimer.NoKillWhileActive | agentsessions/pty_session.go:607-627 | no claim while every gap in activity is shorter than the threshold, counting from attempt start |
| IdleTimer.ClaimWindow | agentsessions/pty_session.go:697-722 | a claim at t means idle for the threshold, and for less than one period more |
| IdleTimer.ClaimedInTime | agentsessions/pty_session.go:697-722 | if activity stops at L and the child lives, the claim falls in [L+threshold, L+threshold+max(threshold/4, 100ms)) |
| IdleTimer.LastActivityIsLatest | agentsessions/supervision.go:264-276 | the tracker holds the latest tick so far |
| Backoff.BackoffBounds | agentsessions/supervision.go:304-319 | positive and at most the cap in force, for every attempt and cap; a non-positive cap means 30 s, reached from attempt 6 on |
| Backoff.BackoffMonotone | agentsessions/supervision.go:304-319 | never decreases with the attempt |
| Backoff.BackoffIsCappedDoubling | agentsessions/supervision.go:311-318 | equals min(2^(attempt-1) s, cap) exactly when the attempt is at most 30 or the cap does not exceed 2^(attempt-1) s |
| Backoff.BackoffClosedForm | agentsessions/supervision.go:304-319 | equals min(2^(attempt-1) s, cap) for caps up to 2^30 s |
| Backoff.ClosedFormFailsAboveTheBound | agentsessions/supervision.go:311-313 | and not for larger caps: a concrete input |
| Backoff.TotalBackoffClosedForm | agentsessions/pty_session.go:557-557 | the total slept in a run with n restarts: 2^n - 1 s while doubling, then one cap for each further restart |
| PtyHandle.HandleIsSafe | agentsessions/pty_session.go:661-666 | in every interleaving of senders, waiter and restarts the master field is empty or an open master, nothing is written to a closed one, and each master received whole payloads and failed prefixes in lock order |
| PtyHandle.NoSendAfterStop | agentsessions/pty_session.go:817-820 | a send is admitted exactly until Stop, and none afterwards |
| PtyLines.InputIsOneLine | agentsessions/pty_session.go:817-837 | in every reachable state, for every successful input on any master: without the newline it may end in, it is the next line the child reads if and only if it contains no other and no earlier write left a line unfinished; otherwise it ends that line |
| PtyLines.FrameIsBody | agentsessions/pty_session.go:826-831 | a send adds a newline exactly if the input does not end in one, and sends one that does as it is |
| PtyLines.OwnNewlineIsEnough | agentsessions/pty_session.go:826-831 | a newline-free input with and without a newline of its own leaves the same bytes and the same one line |
| PtyLines.WhenClean | agentsessions/pty_session.go:839-853 | an input leaves no line unfinished; a raw prompt or a failed write leaves one exactly when its last byte on the master is not a newline |
| PtyLines.InputsArriveWhole | agentsessions/pty_session.go:817-837 | after whatever prompts and failed writes, inputs that follow read back in lock order exactly when nothing was left unfinished and they are newline-free |
| PtyLines.LinesRecoverExactly | agentsessions/pty_session.go:826-831 | splitting a stream and then framed inputs on newlines gives the stream's lines and then the inputs without their final newlines exactly when the stream ends in a newline or is empty and no input has another; and the inputs themselves exactly when they have none |
| PtyLines.RawPromptMerges | agentsessions/pty_session.go:137-145 | for every prompt or failed write and every newline-free input there is a run of a new session, and in it the input reads as its own line exactly when the prompt ends in a newline or is empty |
| PtyInput.Input.SendInput | agentsessions/pty_session.go:817-837 | in place, and as an uninterrupted run of the protocol: refused exactly when not alive or without a master; success adds the framed input, an error a strict prefix of it and no activity tick |
| PtyInput.Input.WriteRaw | agentsessions/pty_session.go:839-853 | the same for the boot prompt, unframed |
| PtyInput.Input.Reap | agentsessions/pty_session.go:661-666 | the protocol's lock, clear and close: the master is out of the field before it is closed |
| PtyInput.Input.Install | agentsessions/pty_session.go:329-332 | the protocol's respawn: a new open master goes into the field |
| PtyInput.SendSteps | agentsessions/pty_session.go:817-837 | the steps of an uninterrupted send are possible in every reachable state with the lock free, put exactly what the master takes of the payload on the master in place, and end refused, sent or failed accordingly |
| PtyHandle.InvPreserved | agentsessions/pty_session.go:329-332 | every step keeps the handle, lock and byte-log invariants |
| PtyHandle.InvAlways | agentsessions/pty_session.go:438-442 | they hold in every reachable state |
| ManagerTheorems.ShutdownSettlesEverything | agentsessions/manager.go:570-590 | when the first Shutdown has returned nil, every session ever registered is recorded and its broker closed, the registry is empty and none is registered afterwards; while live ids are distinct each result has also been delivered once |
| ManagerTheorems.SinkTrace | agentsessions/manager.go:297-315 | each Start shows the sink nothing, launching-failed, launching-running or launching-running-terminal, in that order; done exactly when the exit code is 0 or the entry its watch found had been stopped, which while live ids are distinct means that a Stop found this session registered |
| ManagerTheorems.WaitersAgree | agentsessions/manager.go:553-566 | while live ids are distinct, all waiters of a session see one exit code and error, its own, after its end is recorded and its broker closed |
| ManagerHistory.WaitAnswersForItsId | agentsessions/manager.go:553-566 | WaitSession(id) waits on the session last registered under that id, whatever comes later; with distinct live ids it answers with that session's own end, and that is the one running under the id if one is |
| ManagerHistory.AttachFindsItsId | agentsessions/manager.go:483-492 | AttachWith(id) finds the live session registered under that id and is refused exactly when there is none or it has no broker |
| ManagerHistory.MapsAreLastFiled | agentsessions/manager.go:249-303 | in every run the two maps hold what was last filed under each id before Shutdown, the registry until a watch of that id takes it out |
| ManagerHistory.StartIsItsSteps | agentsessions/manager.go:198-325 | in every run each Start, session and watch has come exactly as far as the steps taken on it, under the id it was called with and with the code and error it exited with |
| ManagerHistory.CallersAreTheirSteps | agentsessions/manager.go:504-590 | in every run each WaitSession, AttachWith and Shutdown call has come exactly as far as its own steps |
| ManagerHistory.StartStepsPossible | agentsessions/manager.go:198-325 | each step of a Start, its session and its watch is possible exactly when its predecessor was taken |
| ManagerHistory.CallersStepsPossible | agentsessions/manager.go:209-214 | Starts are admitted exactly until Shutdown begins; waits and stops find an id exactly if it was filed; waiters, attachers and Shutdown move on exactly when they can |
| ManagerHistory.StartShows | agentsessions/manager.go:216-315 | the sink's trace and the number of broker closes at every point of every Start |
| ManagerTheorems.AttachCountIsExact | agentsessions/manager.go:504-517 | in every run attachCount is the number of AttachWith calls in progress, and the guard in the decrement never decides anything |
| ManagerTheorems.KillingIsStopped | agentsessions/manager.go:330-341 | an entry is marked exactly when some Stop found it in the registry |
| ManagerTheorems.WatchCompletes | agentsessions/manager.go:292-325 | once its session has ended a watch can finish by its own steps alone, in at most five |
| ManagerShutdown.ShutdownCanReturn | agentsessions/manager.go:579-589 | once all registered sessions have ended, with or without distinct ids, the watches' own steps lead to the moment at which the waiting Shutdown returns nil |
| ManagerTheorems.StoppedRun | agentsessions/manager.go:249-257 | after Shutdown began nothing is registered any more |
| ManagerInvariant.InvStep | agentsessions/manager.go:110-124 | every step keeps the manager's invariant while live ids are distinct |
| ManagerInvariant.WgStep | agentsessions/manager.go:260-293 | the wait group counts the unfinished watches, whatever the ids, and never grows once stopped |
| ManagerEveryRun.EveryStep | agentsessions/manager.go:292-325 | every step, with distinct live ids or not, keeps each Start's sink trace and broker closes, the maps, the attach counts and the wait group right |
| ManagerEveryRun.SawIsSawStop | agentsessions/manager.go:297-302 | a watch takes its session's end for a stop exactly when, at its lock region, the entry under its id had been stopped |
| ManagerIds.DeliveredIffDistinct | agentsessions/manager.go:258-259 | when all watches are done, every result was delivered exactly once if and only if no live id was registered again |
| ManagerIds.OverwrittenIsLost | agentsessions/manager.go:258-259 | registering an id in use puts the earlier session's result out of everyone's reach |
| ManagerIds.LostForever | agentsessions/manager.go:296-303 | and it stays so |
| ManagerIds.FiledKept | agentsessions/manager.go:296-303 | with or without distinct ids, the two maps agree and a captured result is no longer registered |
| ManagerDuplicates.ClosedTwiceIffDuplicate | agentsessions/manager.go:320-324 | when all watches are done, some result was closed twice if and only if a live id was registered again |
| ManagerIds.DuplicateIdClosesTwice | agentsessions/manager.go:320-324 | a concrete run with one double close and one lost result |
| ManagerDuplicates.WaitersAgreeInEveryRun | agentsessions/manager.go:553-566 | with or without distinct ids, until a result is closed a second time: all its waiters see one code and error, the end of a session under that id, recorded and its broker closed |
| ManagerIds.LaterShutdownDoesNotWait | agentsessions/manager.go:571-575 | a later Shutdown returns while a session runs: a concrete run |
| ManagerShutdown.LaterShutdownFindsAllDoneIff | agentsessions/manager.go:571-575 | in every run: Shutdown can return without waiting exactly when the manager is stopped, all sessions are then done if and only if the wait group is empty, and the first one returns nil only then |
| SessionManager.Manager.Register | agentsessions/manager.go:249-261 | Start's second lock region is the protocol's step |
| SessionManager.Manager.Remove | agentsessions/manager.go:296-303 | the watch's lock region is the protocol's step, and it returns what that step captured |
| SessionManager.Manager.MarkKilling | agentsessions/manager.go:331-339 | Stop's lock region is the protocol's step; false when nothing is registered |
| SessionManager.Manager.EnterAttach | agentsessions/manager.go:504-506 | the increment is the protocol's step |
| SessionManager.Manager.LeaveAttach | agentsessions/manager.go:508-513 | the deferred decrement is the protocol's step |
| SessionManager.Manager.BeginShutdown | agentsessions/manager.go:571-577 | the first call sets the flag, later ones change nothing |
| SessionManager.Manager.Start | agentsessions/manager.go:198-266 | which of the four outcomes, with the effects on sink, broker and session in order, and the protocol phase and trace each leads to |
| SessionManager.StartTells | agentsessions/manager.go:216-257 | what Start tells the sink is the trace of its phase; the broker is closed exactly on a failed or refused launch, and the new session stopped exactly on the latter |
| SessionManager.Manager.Watch | agentsessions/manager.go:292-325 | the end is recorded, then the broker closed, then code and error given out in the result filed under the id, and the wait group drops by one; what the sink and the broker see is what the protocol records; the close panics exactly when that result was given out before |
| SessionManager.SignOff | agentsessions/manager.go:305-324 | the four protocol steps behind the watch's lock region, and nothing else changes but the result the watch holds |

## Left out

- The unsupervised (legacy) PTY and stdio paths: one attempt of the supervised loop with a nil supervisor.
- `streaming_stdio_session.go`: its supervised loop repeats the PTY one.
- `serve_http_session.go`, `from_provider.go`, `from_adapter.go`: HTTP, provider and runner plumbing.
- Boot-directory planting, diagnostics, id generation and log-path resolution: filesystem, logging and randomness.
- The start handshake of the first attempt (reader-ready and supervisor-start signals, auto-fired first turn): the loop is modelled from the moment supervision begins.
- Process spawning, signals, process groups, PTY ioctls, sandboxing and resource limits: environment steps that succeed, fail or exit.
- `killWithGrace` and the body of `Stop` after the drain: timed signals to a process; that a kill makes the child exit is not assumed, so no theorem promises that a run ends.
- JSON encoding and decoding: a line is a decoded frame or not JSON, and an id either decodes to an integer or does not; the `data` member of an error and the bytes of an encoded frame are not modelled.
- A blocking write to a full pipe while the input lock is held: a write succeeds or fails.
- Two writers sharing the child's stdin: `RpcRouting` describes the reader's own writes; their interleaving with the requests of `Call` is one write at a time under the lock and is not restated.
- Wrap-around of `nextID` and `totalWritten` at 2^63: unbounded integers.
- Fan-out of lines and events to callbacks other than session ids, requests and notifications.
- Validation of an empty id or missing runtime in `Manager.Start`, and the read-only `Get`, `List`, `Health`, `SendInput`, `Resize` and `JsonRpcCall` look-ups.
- Lifecycle events and attachment records: emitted beside the state records and the attach counter they accompany.
- `oom_kill` and `resource_limit` causes: declared, but no code sets them.
- ManagerTheorems.WaitersAgree: says nothing of sessions whose id was registered twice; for those see `ManagerDuplicates.WaitersAgreeInEveryRun`.
- ManagerDuplicates.WaitersAgreeInEveryRun: what a waiter reads after a second close is left open, since the process has panicked by then.
- PtyInput.Input.SendInput: nobody else takes a step in the middle; the interleavings are those of `PtyHandle`.
- PtyInput.Input.WriteRaw: likewise.
- The order in which Go walks a map: any order is allowed, and the theorems hold for all of them.
- ResumeClient.ResumeIsExact: the duplicate or gap is stated for byte positions delivered to the writer; bytes a writer accepted but lost are outside the model.
- RpcDrain.StopReleasesEveryone: says that the answer is in the channel or about to be sent, not that the scheduler runs the receiver.
- RpcClient.Client.RunReaderLoop: runs undisturbed by other lock regions; their interleavings are those of `RpcProtocol`.
- SessionManager.Manager.Start: another caller's Shutdown is the only step that may fall between its lock regions; all others interleave in `ManagerProtocol`.
- IdleTimer.SuperviseIdle: an ideal ticker; a late tick would delay the claim by as much. When the other supervisor claims is a parameter.
- IdleTimer.CauseOfTwo: each ticker is taken to start within its threshold of the attempt start. A kill needs time to end the child, so both claims are judged against the exit the child would make unkilled.
