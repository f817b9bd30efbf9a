# A verified model of poe-acp

poe-acp relays Poe conversations to a coding agent over ACP. Poe sends an HTTP query; the router finds
or creates the conversation's session, queues a turn on it, lets the session's runner call
`Agent.Prompt`, and streams the agent's updates back as server-sent events while a heartbeat animates a
spinner on the same stream. This project models the per-conversation turn machine and the streaming path
behind it, layer by layer, and proves what every interleaving of its goroutines keeps. Three smaller
components follow: the login broker, the naming of attachments, and the skill catalog.

Check everything with `dafny verify dfyconfig.toml`.

## How the model is organised

Code that updates state appears as classes and loops (`SessionQueue`, `TurnReq`, `Cache`, `Drain`,
`TurnRunner`, `Table`, `SSEWriter`, `OrderedWriter`, `StreamSink`, `Broker`, `MessageDir`), each proved
against functions on values. Concurrency appears as transition systems over those same functions: an
action is one critical section, one channel operation, or one store by the goroutine that owns the data;
a run is any sequence of enabled actions; the theorems speak about all runs.

| module | contents |
|---|---|
| `TurnQueue` | `sessionQueue` and its requests as classes |
| `QueueRuns` | every interleaving on one queue, at the granularity of its mutex |
| `EvictionWindow` | the turns accepted in the gap between the collector's idle test and its stop |
| `OptionCache`, `ChunkRender`, `Sinks` | `applyOptions`, `drainProcessChunk`, the sink interface |
| `SessionRuns` | one session: submitters, runner, drain, agent updates, eviction in small or atomic steps |
| `Shutdown` | when the runner of a stopped session exits, and which turns hang |
| `EvictionHarm` | which user turns an eviction harms, exactly |
| `Runner` | the sequential code of the runner and of the drain loop |
| `RouterRuns` | all sessions, the conversation map, concurrent `Prompt` and `ReportReaction` calls |
| `AcceptedTurns` | which accepted turns are seeded, and when they were queued |
| `Progress` | why `Prompt` returns |
| `SessionTable` | `install`, `touch` and `gcOnce` on the map |
| `Sse`, `Events`, `OrderedStream` | event framing and its reader, JSON payloads, Poe's display, the gate and the heartbeat |
| `EndToEnd` | what the user finally sees |
| `AuthBroker`, `FileNames`, `Skills` | logins, attachment names, the skill catalog |

**Eviction is not atomic in the code.** `gcOnce` tests `idle()` and calls `stop()` in two critical sections
of the queue's mutex (internal/router/router.go:1362-1366). The comment at internal/router/router.go:336-338
says that a stopped queue is idle. `QueueRuns`, `EvictionWindow`, `SessionRuns`, `Shutdown` and `EvictionHarm`
do *not* assume this: idle test, closing of the stop channels, `stop()`, each close of a pending request, and
the exit of the drain are separate actions there. `gcOnce` holds the router's mutex throughout
(internal/router/router.go:1359-1360); that keeps the runner from refreshing a session, and so from completing
a turn, in between (`NoCompletionDuringEviction`), but not a submitter from pushing nor the runner from popping.
At that granularity the comment is wrong in two ways, each with a run that shows it:

- a user turn accepted between idle test and stop can be lost (`IdleTestIsNotEnough`): completed as shed,
  without a single call on its sink, not even `Done`;
- such a turn can also be popped after the drain was told to stop (`LateTurnAfterSignal`) and then hang
  for ever (`RunnerHangs`): the runner waits for an acknowledgement at internal/router/router.go:736 that only
  the drain could give, its done channel stays open, and `Prompt` never returns.

Call a user turn harmed if it is lost, or if it still needs the drain when the drain is free to leave
(`RiskIsReal`: such a turn can be made to hang). `HarmedIff` says which turns these are: those accepted between
idle test and stop that the drain had not acknowledged when the stop channels were closed, and no others.
`HarmlessIff` concludes when an eviction harms nobody; a turn pushed in between need not be harmed, as
`AcknowledgedTurnIsUnharmed` shows. `RunnerExitsIff` says when the runner can exit: if and only if it does not
hold a turn whose end marker the drain had not taken when it left. Conservation, the exactly-once close, order,
the bound, the absence of lost wake-ups, the single writer, and the alternation of markers hold all the same.

**Assumption.** `RouterRuns`, `Progress`, `SessionTable` and `EndToEnd`, and the lemmas of the other modules
that require `Atomic`, take internal/router/router.go:1362-1366 as one atomic step, as that comment intends.

**Where documents and code differ** the model follows the code: docs/poe-acp-design.md:136-138 and
README.md:195-200 describe earlier designs of queueing and of the heartbeat. The comment at
internal/httpsrv/handler.go:311-315 says that `hbReplace` returns true iff the frame went on the wire; the
code returns true whenever the gate is open, also if the write fails.

**What is a parameter.** The agent is an environment: it may answer anything, emit any updates at any
time, and end a prompt in any way. Time is a clock that only moves forward. Turns carry a unique id.
Strings are sequences of Unicode characters.

## Model

| member | source | states |
|---|---|---|
| TurnQueue.OldestReaction | internal/router/router.go:269-275 | The position found holds a reaction and everything before it is a user turn. |
| TurnQueue.OldestReactionIs | internal/router/router.go:269-275 | Any position with these two properties is that one. |
| TurnQueue.TurnReq.CloseDone | internal/router/router.go:280 | `done` goes from open to closed; closing it twice is excluded at every call. |
| TurnQueue.SessionQueue.FindOldestReaction | internal/router/router.go:269-275 | The scan returns the oldest pending reaction, or the length of the queue. |
| TurnQueue.SessionQueue.Shed | internal/router/router.go:276-280 | Exactly one pending request leaves the queue and is completed as shed. |
| TurnQueue.SessionQueue.Push | internal/router/router.go:262-297 | Accepts exactly unless the queue is stopped, or the request is a reaction and at least 32 user turns and no reaction are queued; new queue contents in every case; a rejected request stays open; among the old requests exactly those that left are completed, as shed. |
| TurnQueue.PushDecision | internal/router/router.go:265-291 | When a push is accepted and when it displaces a turn, on the queue's contents alone. |
| TurnQueue.SessionQueue.Enqueue | internal/router/router.go:291-296 | Appends and leaves one wake-up token, also if there was one already. |
| TurnQueue.SessionQueue.TryPop | internal/router/router.go:301-311 | Takes the oldest request and marks it in flight; changes nothing on an empty queue. |
| TurnQueue.SessionQueue.FinishInFlight | internal/router/router.go:322-326 | Only the in-flight flag changes. |
| TurnQueue.SessionQueue.Stop | internal/router/router.go:339-349 | The queue is sealed and empty; each pending request is completed as shed, once. |
| QueueRuns.RunsKeepInv | internal/router/router.go:262-349 | The queue invariant holds in every state of every run, without assuming atomic eviction. |
| QueueRuns.Conservation | internal/router/router.go:262-349 | Every accepted turn is in exactly one of queued, in flight, finished, dropped; other turns are in none. |
| QueueRuns.ClosedAtMostOnce | internal/router/router.go:262-349 | Over a whole run each done channel is closed at most once, and never for a rejected push. |
| QueueRuns.ShedMeansNotPrompted | internal/router/router.go:686-757 | A closed turn is unshed iff it reached `Agent.Prompt`; no turn gets there twice. |
| QueueRuns.PushOutcome | internal/router/router.go:262-297 | For every push of every run: turned away iff the queue is stopped, or the turn is a reaction and at least 32 turns are queued, all user turns; a turn is displaced iff the push is accepted with at least 32 queued, one of them a reaction. |
| QueueRuns.JudgedByAge | internal/router/router.go:690-699 | A turn is dropped for its age only if it is a reaction more than sixty seconds old when looked at, and prompted only if it is a user turn or not that old. |
| QueueRuns.AgeDecides | internal/router/router.go:690-699 | A popped turn can always be dropped or admitted, and only in the way its age demands. |
| QueueRuns.Fifo | internal/router/router.go:262-318 | Popped turns followed by waiting ones are the accepted turns without the displaced ones, in accept order. |
| QueueRuns.UserFifo | internal/router/router.go:262-318 | User turns leave in accept order and push never displaces one. |
| QueueRuns.QueueBound | internal/router/router.go:236-239 | A queue longer than 32 holds only user turns. |
| QueueRuns.DisplacedAreOldest | internal/router/router.go:268-282 | Whatever push displaces is a reaction accepted before every reaction still queued. |
| QueueRuns.NoLostWakeup | internal/router/router.go:292-317 | A runner about to wait on a non-empty queue finds a token. |
| QueueRuns.NoCompletionDuringEviction | internal/router/router.go:1323-1369 | While the collector is between idle test and the end of stop, the runner neither refreshes the session nor closes a done channel. |
| EvictionWindow.StopTakes | internal/router/router.go:339-349 | What stop completes is exactly what the queue held when stop locked it. |
| EvictionWindow.UserTurnLostIff | internal/router/router.go:1357-1369 | An accepted user turn is completed as shed without being prompted iff the queue held it when stop locked it; once the queue is sealed, iff it was accepted after the idle test and has not been popped. |
| EvictionWindow.WindowCovers | internal/router/router.go:1362-1365 | Once the collector has seen the queue idle, everything it then finds queued, held or taken was accepted afterwards. |
| EvictionWindow.IdleTestIsNotEnough | internal/router/router.go:336-338 | A run in which a user turn pushed between idle test and stop is lost. |
| EvictionWindow.LateTurnAfterSignal | internal/router/router.go:1362-1365 | A run in which a turn is popped after the stop channels were closed. |
| OptionCache.Cache.Apply | internal/router/router.go:762-794 | The method implements the function for which `CacheTracksAgent` and `NoThinkingResent` are proved: cache, agent calls and error for every combination of change and answer. |
| OptionCache.ApplyEffect | internal/router/router.go:762-794 | The cached model stays the one the agent last accepted; a thinking level is sent iff the cached one changes. |
| OptionCache.CacheTracksAgent | internal/router/router.go:766-774 | After any sequence of turns and answers: cached model, agent's model, and the agent's model without any cache are equal. |
| OptionCache.NoThinkingResent | internal/router/router.go:775-788 | No thinking level is sent twice in a row, not even a rejected one. |
| OptionCache.LevelsAreSent | internal/router/router.go:766-788 | The levels the agent receives are those requested, without neighbouring repetitions and without those of turns whose model was refused; the cached level is the last of them. |
| OptionCache.ModelsAreSent | internal/router/router.go:766-774 | The agent receives every requested model except the one in use. |
| OptionCache.RefusalIsReported | internal/router/router.go:766-772 | Applying options fails iff a new model is requested and refused, with the agent's error. |
| ChunkRender.Drain.ProcessChunk | internal/router/router.go:484-522 | Sink calls and new drain state for every update. |
| ChunkRender.QuoteLines | internal/router/router.go:516-520 | Every line break gets a quote marker. |
| ChunkRender.RunsMode | internal/router/router.go:502-511 | The drain's mode is the kind of the last run; neighbouring runs differ in kind. |
| ChunkRender.StreamEqualsBatch | internal/router/router.go:484-522 | The streamed text is the blocks of the maximal same-kind runs, joined by blank lines, thoughts quoted. |
| ChunkRender.StreamIsTypeset | internal/router/router.go:484-522 | The streamed text is a function of the visible characters and their kinds. |
| ChunkRender.ChunkingIsInvisible | internal/router/router.go:484-522 | Re-splitting runs, or mixing in empty, hidden or suppressed updates, changes nothing. |
| ChunkRender.FirstChunkOnce | internal/router/router.go:512-515 | The drain announces the first chunk at most once, ahead of all text, and iff there is any. |
| ChunkRender.HidingDropsThoughts | internal/router/router.go:499-501 | With thinking hidden the sink calls are those for the message updates alone. |
| ChunkRender.HiddenStream | internal/router/router.go:499-501 | With thinking hidden exactly the message texts are streamed. |
| ChunkRender.EverythingIsStreamed | internal/router/router.go:490-501 | With thinking shown every character of every message and thought is streamed, in order, and nothing else is. |
| ChunkRender.UnquoteQuote | internal/router/router.go:516-520 | Quoting a thought can be undone. |
| ChunkRender.ThoughtIsQuoted | internal/router/router.go:503-520 | Every line of a thought's block starts with the quote marker. |
| SessionRuns.RunsKeepInv | internal/router/router.go:442-522 | The session invariant (queue, handshake, attribution, sink logs) holds in every state of every run, without assuming atomic eviction. |
| SessionRuns.AtomicRunsKeepInv | internal/router/router.go:1357-1369 | With atomic eviction a stopped session is idle and stop has taken nothing. |
| SessionRuns.SingleWriter | internal/router/router.go:724-757 | Runner and drain are never both allowed to write a turn's sink, and nobody is once the turn is completed. |
| SessionRuns.CompletedSink | internal/router/router.go:686-757 | However eviction interleaves: a completed user turn was either taken by stop, and then its sink got nothing at all; or it was prompted, and its sink got exactly notice, rendering of the chunks between its markers, and closing calls. |
| SessionRuns.CompletedSinkAtomic | internal/router/router.go:686-757 | With atomic eviction every completed user turn was prompted and its sink got exactly that. |
| SessionRuns.SinkSealed | internal/router/router.go:686-757 | However long a run goes on, the sink of a completed turn is not written again. |
| SessionRuns.WrittenIsAccepted | internal/router/router.go:572-588 | Only accepted turns' sinks are written by the session. |
| SessionRuns.MarkersAlternate | internal/router/router.go:724-736 | Markers come in begin/end pairs, one per prompted turn, in prompt order. |
| SessionRuns.AckIsNear | internal/router/router.go:454-480 | While an acknowledgement is awaited and the drain has not left, the drain can move; it fires after as many receives as the end marker's position, whatever is appended behind. |
| SessionRuns.AckMeansRendered | internal/router/router.go:731-736 | Once the end marker is processed, nothing later in the channel adds to the turn. |
| SessionRuns.InlineOnce | internal/router/router.go:710-722 | Exactly the first user turn prepared carries the inline system prompt, if one is needed; never a reaction. |
| SessionRuns.CacheOfRun | internal/router/router.go:704-709 | In every run a session's option cache is what its user turns have made of it, in the runner's order; its model is the agent's, with or without a cache. |
| SessionRuns.NoticesOfRun | internal/router/router.go:704-709 | In every run a prepared user turn's notice is the error its request has led to, a reaction's is none. |
| SessionRuns.OutcomeIsTheAgents | internal/router/router.go:726-756 | The outcome that a turn is closed with is the one `Agent.Prompt` came back with for it. |
| SessionRuns.ChannelIsBounded | internal/router/router.go:1235 | The chunk channel never holds more than 256 messages. |
| Shutdown.DoomedForever | internal/router/router.go:731-736 | If the drain has left before taking the end marker of the turn the runner holds: in every continuation the runner keeps that turn, its done channel stays open, and the runner does not exit. |
| Shutdown.SealedRunnerStops | internal/router/router.go:671-757 | After stop only the runner's steps and the agent's answer change a bound, and each lowers it, waiting for the acknowledgement included. |
| Shutdown.SealedRunnerMoves | internal/router/router.go:671-757 | After stop, unless its turn hangs in that way, the runner's own step, the agent's answer, the drain's receive or the collector's next close is enabled and leads on. |
| Shutdown.RunnerExitsIff | internal/router/router.go:671-757 | The runner of a sealed session can still exit iff it does not hold such a turn. |
| Shutdown.AtomicRunnerExits | internal/router/router.go:1357-1369 | With atomic eviction no turn ever hangs and the runner of an evicted session exits within four steps, none of which waits for the drain. |
| Shutdown.CoreRunIsARun | internal/router/router.go:262-349 | Session runs project to queue runs, so the queue theorems hold in every session. |
| Shutdown.LateTurnMayHang | internal/router/router.go:461-463 | Conversely any turn that needs the drain after that can be made to hang by the drain's exit. |
| Shutdown.RunnerHangs | internal/router/router.go:731-736 | A run that ends with the queue sealed, the drain gone and the runner waiting for an acknowledgement; no continuation lets it exit. |
| EvictionHarm.RiskIsReal | internal/router/router.go:461-463 | A turn that ever needed the drain while the stop channels were closed could have hung: at that point of the run the drain's exit is all it takes. |
| EvictionHarm.HungIsAtRisk | internal/router/router.go:731-736 | Conversely a user turn that hangs was at risk, was accepted between idle test and stop, and was not acknowledged when the stop channels were closed. |
| EvictionHarm.LostIff | internal/router/router.go:339-349 | In a sealed session the lost user turns are those accepted between idle test and stop and not popped. |
| EvictionHarm.HarmedIff | internal/router/router.go:1357-1369 | In a sealed session a user turn is lost or at risk iff it was accepted between idle test and stop and the drain had not acknowledged it when the stop channels were closed. |
| EvictionHarm.HarmlessIff | internal/router/router.go:336-338 | An eviction harms no user turn iff every user turn accepted between idle test and stop was acknowledged before the stop channels were closed. |
| EvictionHarm.AtomicHarmsNobody | internal/router/router.go:336-338 | With atomic eviction no turn is ever lost or at risk. |
| EvictionHarm.AcknowledgedTurnIsUnharmed | internal/router/router.go:1362-1365 | A run in which a user turn of that window is acknowledged in time, completed after the stop, and not harmed. |
| Runner.Deliver | internal/router/router.go:473-475 | A chunk reaches the attached turn's sink and no other; without an attached turn it is dropped. |
| Runner.DrainChunks | internal/router/router.go:454-480 | The loop gives every sink exactly the rendering of the chunks between its turn's markers, among the messages it takes before it notices drainStop. |
| Runner.ChannelIsWellMarked | internal/router/router.go:430-448 | In every run the channel satisfies what that loop needs, whatever late chunks the agent sends. |
| Runner.TurnRunner.Assemble | internal/router/router.go:704-722 | Options, notice and inline prompt, for user turns only. |
| Runner.TurnRunner.Stream | internal/router/router.go:473-475 | The drain's share of one turn. |
| Runner.TurnRunner.Conclude | internal/router/router.go:738-756 | The closing calls for every way a prompt can end. |
| Runner.TurnRunner.Execute | internal/router/router.go:701-757 | A turn that is not stale, from notice to Done. |
| Runner.TurnRunner.RunOneTurn | internal/router/router.go:686-757 | A stale reaction is shed without touching anything; every other turn is executed and keeps the error of a failed prompt; on every path the session is refreshed and done is closed. |
| RouterRuns.RunsKeepInv | internal/router/router.go:1215-1369 | The router invariant holds in every state of every run. |
| RouterRuns.GuardsHold | internal/router/router.go:582 | The guards on install and push in the model never block the code. |
| RouterRuns.WorkIsMapped | internal/router/router.go:1215-1369 | A session with a queued or in-flight turn is the one in the map for its conversation. |
| RouterRuns.OnePromptPerConversation | internal/router/router.go:668-680 | At most one `Agent.Prompt` runs per conversation, across evictions, re-creations and lost races. |
| RouterRuns.TurnCallsEnd | internal/router/router.go:738-757 | The calls of a turn contain exactly one Done, last. |
| RouterRuns.AcceptedPrompt | internal/router/router.go:590-606 | In every run, when `Prompt` has returned for an accepted turn, its sink has exactly the calls of that turn. |
| RouterRuns.PromptEndsWithDone | internal/router/router.go:530-606 | On every path through `Prompt` the sink gets exactly one Done, as its last call. |
| RouterRuns.NoForeignWrites | internal/router/router.go:454-480 | Only the session that accepted a turn writes to its sink. |
| RouterRuns.QuietAfterReturn | internal/router/router.go:594-600 | Nothing writes to the sink after `Prompt` has returned. |
| RouterRuns.Projection | internal/router/router.go:1301-1369 | Every router action is at most one step of each session, so session theorems hold in it. |
| RouterRuns.SeededOnce | internal/router/router.go:1276-1296 | At most one accepted turn of a session is seeded with the transcript: its creator's, in a session that was not resumed. |
| RouterRuns.TurnOfCall | internal/router/router.go:572-581 | The turn of a call has the call's own kind and options. |
| RouterRuns.RejectionIsReported | internal/router/router.go:535-588 | A prompt that never got a turn accepted has told its sink one error, then Done, and nothing else. |
| AcceptedTurns.SeededIff | internal/router/router.go:1276-1296 | An accepted turn is seeded iff its call created the session, the agent session was not resumed, and the call came with prior turns. |
| AcceptedTurns.EnqueuedWhenPushed | internal/router/router.go:572-582 | The time in an accepted turn is the time of its push. |
| RouterRuns.InlineOncePerSession | internal/router/router.go:710-722 | In every session of every run exactly the first user turn carries the inline prompt, iff one is configured that the agent cannot install itself. |
| RouterRuns.NeedIsConfigured | internal/router/router.go:1255-1294 | A session needs the inline prompt iff the configuration says so. |
| RouterRuns.UserPromptRejectedIff | internal/router/router.go:582-588 | A user turn is rejected iff its session is no longer in the map. |
| RouterRuns.EvictionWaits | internal/router/router.go:1323-1369 | No session is evicted within its time to live after the touch at the end of one of its turns. |
| Progress.StepNears | internal/router/router.go:671-757 | While a user turn is queued or in flight, every step of its runner, the agent's answer, and the drain's receives under an awaited acknowledgement lower a measure (turns to go, steps to go, messages to go); no other step of the session raises it. |
| Progress.WaitingCallMoves | internal/router/router.go:590-606 | While `Prompt` waits for its turn it can return, or such a step is enabled, or the drain can make room in a full channel. |
| Progress.WaitingCallNears | internal/router/router.go:590-606 | And nothing that happens anywhere in the router takes the turn further from its end. |
| Progress.PromptCanReturn | internal/router/router.go:590-606 | From every reachable state in which `Prompt` waits some continuation returns it, made of steps of the turn's session only. |
| SessionTable.CollectionIsARun | internal/router/router.go:1357-1369 | A collection is a sequence of single evictions, hence part of a run. |
| SessionTable.DueIff | internal/router/router.go:1358-1362 | A session is evicted only and whenever it has no queued or running turn and has been unused for longer than the time to live. |
| SessionTable.EvictKeepsOthers | internal/router/router.go:1361-1368 | Evicting one session leaves the others mapped and equally due. |
| SessionTable.Table.Install | internal/router/router.go:1301-1321 | The first session installed wins; a later one is stopped and the winner returned, unseeded. |
| SessionTable.Table.Touch | internal/router/router.go:1323-1329 | The conversation's current session, if any, is refreshed. |
| SessionTable.Table.EvictOne | internal/router/router.go:1363-1366 | One eviction step. |
| SessionTable.Table.Consider | internal/router/router.go:1361-1367 | One conversation's session is evicted iff it is due. |
| SessionTable.Table.EvictDue | internal/router/router.go:1361-1368 | The loop over the conversations, in any order. |
| SessionTable.Table.GcOnce | internal/router/router.go:1357-1369 | Exactly the idle sessions unused for longer than the time to live are removed; the invariant survives. |
| Sse.FeedLines | internal/poeproto/poeproto.go:256 | A conforming reader processes the three lines of a frame one by one. |
| Sse.FramingRoundTrip | internal/poeproto/poeproto.go:246-261 | Reading the bytes of any list of frames gives back that list. |
| Sse.TruncationIsPrefix | internal/poeproto/poeproto.go:256-258 | A stream cut at any character yields a prefix of the frames. |
| Events.UnescapeEscaped | internal/poeproto/poeproto.go:252 | JSON string escaping can be undone, whatever follows the string. |
| Events.FramesAreWritable | internal/poeproto/poeproto.go:252-256 | No payload ever contains a raw line break. |
| Events.EventsRoundTrip | internal/poeproto/poeproto.go:246-297 | From the bytes of any event list a client gets back exactly that list: texts, overwrites, errors with their type, and the final done. |
| Events.DisplayOfBytes | docs/poe-protocol-reference.md:80-92 | A client reading the bytes of an event list displays the fold of append and overwrite over it. |
| OrderedStream.SSEWriter.Event | internal/poeproto/poeproto.go:246-261 | The response is the frames of the events written; nothing after close or a failed connection. |
| OrderedStream.SSEWriter.Text | internal/poeproto/poeproto.go:269-274 | Empty text writes nothing. |
| OrderedStream.SSEWriter.Done | internal/poeproto/poeproto.go:291-297 | The writer is closed even if the event could not be written. |
| OrderedStream.OrderedWriter.ClearSpinnerLocked | internal/httpsrv/handler.go:304-309 | A visible spinner is overwritten with the empty body, before the first user write only. |
| OrderedStream.OrderedWriter.UserText | internal/httpsrv/handler.go:249-258 | Clears a visible spinner first; closes the gate even for empty text; nothing once closed. |
| OrderedStream.OrderedWriter.UserReplace | internal/httpsrv/handler.go:263-272 | Overwrites without a clearing frame and closes the gate; nothing once closed. |
| OrderedStream.OrderedWriter.UserError | internal/httpsrv/handler.go:276-285 | Clears a visible spinner first and closes the gate; nothing once closed. |
| OrderedStream.OrderedWriter.UserDone | internal/httpsrv/handler.go:291-300 | Clears a spinner that is all there is, writes `done` and seals the stream. |
| OrderedStream.OrderedWriter.HbReplace | internal/httpsrv/handler.go:316-324 | Writes a frame and returns true iff the gate is open. |
| OrderedStream.StreamSink.FirstChunk | internal/httpsrv/handler.go:412 | Wakes the heartbeat; writes nothing. |
| OrderedStream.StreamSink.Text | internal/httpsrv/handler.go:414 | Reaches the stream only through the gate and does not wake the heartbeat: the step that `HeartbeatIsInvisible` is about. |
| OrderedStream.StreamSink.Replace | internal/httpsrv/handler.go:415 | The same for an overwrite. |
| OrderedStream.StreamSink.Error | internal/httpsrv/handler.go:416 | Wakes the heartbeat and goes through the gate. |
| OrderedStream.StreamSink.Done | internal/httpsrv/handler.go:417 | Wakes the heartbeat and goes through the gate. |
| OrderedStream.StreamSink.Beat | internal/httpsrv/handler.go:375-395 | One tick: the next frame, or the end of the heartbeat. |
| OrderedStream.GateClosesOnWrite | internal/httpsrv/handler.go:226-324 | The gate is open exactly until the first user write. |
| OrderedStream.NoFrameAfterWrite | internal/httpsrv/handler.go:316-324 | After a user write a tick leaves the stream as it is and ends the heartbeat; before, it writes one frame. |
| OrderedStream.SpinnerCycles | internal/httpsrv/handler.go:379-389 | The spinner shows one, two and three dots in turn. |
| OrderedStream.HeartbeatIsStopped | internal/httpsrv/handler.go:400-417 | The heartbeat is told to stop by the first chunk, an error or done, and by nothing else. |
| OrderedStream.OpenGateWritesIff | internal/httpsrv/handler.go:311-324 | With an open gate a frame goes on the wire iff the connection still accepts it. |
| OrderedStream.BeatOnBrokenConnection | internal/httpsrv/handler.go:311-324 | On a connection that fails after the meta event, `hbReplace` reports an open gate although its frame was not written. |
| OrderedStream.DoneIsLast | internal/httpsrv/handler.go:291-300 | `done` is written at most once and nothing follows it. |
| OrderedStream.HeartbeatIsInvisible | internal/httpsrv/handler.go:226-324 | With or without heartbeat the displayed body is the same after the first user write; before it, the body is non-empty iff the spinner is visible. |
| OrderedStream.FailureGivesPrefix | internal/httpsrv/handler.go:243-285 | On a connection that fails for good the events are a prefix and the gate's decisions the same. |
| EndToEnd.TurnShows | internal/router/router.go:686-757 | The calls of a turn show notice, transcript and suffix, or just the cancellation notice. |
| EndToEnd.ScreenShowsCalls | internal/httpsrv/handler.go:226-417 | For every interleaving with the heartbeat the body read from the bytes is what the sink calls show. |
| EndToEnd.DisplayedBody | internal/httpsrv/handler.go:107-195 | For every run of the router, every returned user turn and every heartbeat: the exact body on screen. |
| EndToEnd.BodyForCaller | internal/router/router.go:484-522 | The same in the caller's terms: the option is the one the call asked for; with thinking hidden the agent's part is its message texts, otherwise every character it sent. |
| EndToEnd.NoticeComesFirst | internal/router/router.go:704-709 | A refused option is announced first: heartbeat stopped, then the notice. |
| EndToEnd.ErrorReported | internal/router/router.go:738-756 | The sink of a returned user turn has received an error iff the prompt failed or the agent refused; then one, directly before Done, with the agent's message. |
| EndToEnd.ErrorsReachClient | internal/httpsrv/handler.go:276-300 | On a healthy connection the events a client reads contain exactly these errors and end in done, whatever the heartbeat does. |
| EndToEnd.RejectedBody | internal/router/router.go:535-588 | A prompt that never got a turn accepted leaves an empty body. |
| EndToEnd.FailedConnection | internal/httpsrv/handler.go:243-300 | On a failed connection the client reads a prefix of the frames. |
| AuthBroker.TrimSpace | internal/authbroker/authbroker.go:64 | The result is a slice of the text outside of which there is only white space, and has none at either end. |
| AuthBroker.TrimIsUnique | internal/authbroker/authbroker.go:64 | There is only one such slice. |
| AuthBroker.ProviderIsNotEmpty | internal/authbroker/authbroker.go:112-117 | A login is never started for an empty provider. |
| AuthBroker.ResolveMethodID | internal/authbroker/authbroker.go:230-264 | The first loginable method that the provider names; none iff there is none. |
| AuthBroker.ShortNames | internal/authbroker/authbroker.go:236-264 | A method is named by its id or by what follows "oauth-" in it; only methods that can be driven from a chat are. |
| AuthBroker.TurnReplies | internal/authbroker/authbroker.go:91-217 | With a login pending "/cancel-login" cancels it, any other text is submitted as the redirect, and blank text does nothing; with none pending only "/login " and a known provider calls the agent, and only "needs_redirect" leaves a login pending. |
| AuthBroker.StartsNamedMethod | internal/authbroker/authbroker.go:112-155 | A turn starts a login only for a loginable method that the user has named. |
| AuthBroker.LoginsPairUp | internal/authbroker/authbroker.go:141-217 | The k-th redirect or cancel carries method and id of the k-th login opened; at most one is outstanding. |
| AuthBroker.Broker.PeekPending | internal/authbroker/authbroker.go:220-225 | The conversation's pending login. |
| AuthBroker.Broker.Store | internal/authbroker/authbroker.go:167-169 | Only this conversation's entry changes. |
| AuthBroker.Broker.Delete | internal/authbroker/authbroker.go:192-194 | Only this conversation's entry changes. |
| AuthBroker.Broker.Start | internal/authbroker/authbroker.go:141-182 | Resolves the provider, refuses a second login, and otherwise equals the machine's steps for a start; other conversations keep their entries. |
| AuthBroker.Broker.Complete | internal/authbroker/authbroker.go:185-206 | Equals the machine's steps for a redirect; the entry is dropped whatever the agent says. |
| AuthBroker.Broker.Cancel | internal/authbroker/authbroker.go:209-217 | Equals the machine's steps for a cancel; the entry is dropped before the agent is told. |
| AuthBroker.Broker.Handle | internal/authbroker/authbroker.go:91-118 | Calls and pending login after a turn are as in `TurnReplies`, and equal the conversation's machine run to rest; other conversations keep their entries. |
| AuthBroker.Isolation | internal/authbroker/authbroker.go:91-225 | However conversations interleave, each sees exactly what it would see alone. |
| AuthBroker.OwnLoginsOnly | internal/authbroker/authbroker.go:185-217 | Hence redirects and cancels go to the conversation's own logins, each at most once. |
| FileNames.ValueOfDecimal | internal/router/router.go:1105 | Decimal suffixes determine their number. |
| FileNames.ExtIs | internal/router/router.go:1102-1103 | Stem and extension make up the name; the extension starts at the last dot, if no slash follows it. |
| FileNames.CandidatesDiffer | internal/router/router.go:1104-1105 | Different counters give different candidates. |
| FileNames.Pigeonhole | internal/router/router.go:1104-1109 | If all candidates so far are taken, there are at least as many taken names. |
| FileNames.UniqueName | internal/router/router.go:1098-1110 | Terminates within the number of taken names plus one; the result is free, and the first free candidate. |
| FileNames.MessageDir.Claim | internal/router/router.go:1008-1020 | One download claims one fresh name. |
| FileNames.MessageDir.ClaimAll | internal/router/router.go:563-569 | All names claimed for one prompt are pairwise distinct. |
| Skills.Collect | internal/skills/skills.go:290-295 | The map of the last skill per name. |
| Skills.SortedSkills | internal/skills/skills.go:296-303 | In any order of enumeration: the enabled skills, strictly sorted by name. |
| Skills.Insert | internal/skills/skills.go:303 | Keeps the list strictly sorted and adds exactly one skill. |
| Skills.LessIff | internal/skills/skills.go:303 | The order of names is the lexicographic one. |
| Skills.Merge | internal/skills/skills.go:285-305 | The catalog of the layered map. |
| Skills.CatalogIsUnique | internal/skills/skills.go:285-305 | There is only one such catalog, so the result does not depend on map iteration order. |
| Skills.LastWins | internal/skills/skills.go:279-284 | A skill is in the catalog iff it is enabled and the last of its name over all layers. |
| Skills.StagedMerge | internal/skills/skills.go:285-305 | Merging the earlier layers first gives the same map. |
| Skills.StagedCatalog | internal/skills/skills.go:285-305 | And the same catalog, whatever is disabled in the final merge. |
| Skills.EscapeRoundTrip | internal/skills/skills.go:307-314 | Escaping can be undone and leaves no angle bracket. |
| Skills.FormatCatalog | internal/skills/skills.go:134-158 | The catalog text, empty for no skills. |
| Skills.CatalogIsInjective | internal/skills/skills.go:134-158 | Different non-empty lists never render to the same text. |

## Left out

- The agent process, its JSON-RPC transport and the ACP SDK: an external program; the model lets it do anything.
- Agent updates dropped because the drain has stopped: an update that is not sent simply does not occur as an action.
- `Router.Cancel` and request contexts: cancellation reaches the model as one of the ways a prompt can end.
- Concurrent cold-path resumes of one agent session: which of two sinks the agent process routes updates to is decided outside the router.
- Agreement of the agent's thinking level with the cache: the code deliberately records rejected levels as applied.
- Concurrent login turns of one conversation: the check for a pending login and its insertion are separate critical sections; turns of one conversation are taken to be serial.
- Wording of the broker's messages, the method listing and `handleAuth`: text only. Case folding of provider names is a parameter of `ResolveMethodID`.
- Real time: tickers become actions that may happen at any moment, and the clock is a number that never decreases.
- HTTP fetching, `os.Root`, base64, MIME types, hashing and the attachment sweep; `preferredName`, `fallbackName` and `capName` are parameters of a claim.
- Prompt text: `flattenTranscript`, prompt blocks and `ParseOptions`. A turn records only whether it is seeded and whether it carries the inline prompt.
- Byte-level encoding: characters are Unicode scalar values, and invalid UTF-8 is not modelled. The reader's `id` and `retry` fields are ignored.
- Partial writes on a failing connection: the stream model fails between frames; `TruncationIsPrefix` covers a cut at any character; a cut inside the encoding of one character is not modelled.
- `runTurns`, `popOrWait`, `OnUpdate`, `Prompt` and `getOrCreate` as methods: they block on channels or other goroutines, so they are actions of the transition systems instead of sequential code.
- Finer steps inside one goroutine's exclusive section: sending the begin marker together with the call of `Agent.Prompt`, closing the two stop channels, and the sink calls of one notice or one ending, each make one action.
- DrainChunks: takes the moment at which it notices `drainStop` as a parameter.
- Table.GcOnce: treats each eviction as atomic, see the assumption above; `EvictionWindow`, `Shutdown` and `EvictionHarm` cover the finer steps.
- Progress.StepNears: a receive that only makes room in a full channel does not lower the measure; the fairness of Go's channels, which serves blocked senders in order, is not modelled.
- QueueRuns.Action: the end of a prompt stands for the agent's return and the drain's acknowledgement together; `SessionRuns` has them apart.
- paramctl, config, policy, debuglog, bearer authentication, `normaliseReaction`, skill loading and `main`: short branches, tables and I/O.
