# A verified model of santi

santi is a service in which an agent (a *soul*) runs *turns* against shared *sessions*. This project
models its protocols, its state machines and its text and sequence algorithms in Dafny 4.11, and
proves what they promise. `dafny verify dfyconfig.toml` checks all of it.

Code that changes state step by step is modelled by classes and methods that do the same, and each
method is proved against a specification function on values; what the program promises is then
proved about those functions, over every input and every run. Database transactions, Redis scripts
and the mutex-held sections are single atomic steps. An interleaving is a list of such steps by any
number of workers, and a failed step leaves no trace.

| file | what it models |
|---|---|
| Common.dfy, Text.dfy | errors and results, ordered keys; trimming, searching, joining and printing |
| RedisLease.dfy | the Redis lock: token, expiry, renewal task, compare-and-delete |
| StandaloneLock.dfy | the in-process lock |
| StandaloneDb.dfy | the tables of the SQLite store and its thirteen transactions |
| Provenance.dfy | which transaction gave each stored value |
| SoulRuntime.dfy | its soul-runtime adapter: soul sessions, turns, items, forks |
| SessionStore.dfy | its session-ledger adapter, and the transcript of a forked session |
| TurnProtocol.dfy | many workers under the session lock: sends, compactions, forks |
| TurnService.dfy | the code of one worker, whose calls are steps of that protocol |
| ChatClient.dfy | the chat-completions client: deltas, one response, the cache |
| StreamedCalls.dfy | calls, text and id of a response, read off its payloads; the requests that repeat them |
| ToolLoop.dfy | the rounds of a turn and the message list of each request |
| ForkService.dfy | forking: derived ids, the lineage check, the range check |
| ForkIds.dfy | when two fork requests derive one child id, and what happens then |
| ForkPoint.dfy | when the two meanings of a fork point agree |
| ForkHandoff.dfy | the fork handoff as a retryable effect, with its ledger |
| HandoffRaces.dfy | its attempts step by step, overlapping and cut off anywhere |
| ReplyStore.dfy | protocol replies: log, snapshot, subscribers behind a 64-slot channel |
| Transcript.dfy, Compaction.dfy | messages and compacts as the provider sees them; the threshold hooks |
| ListedHooks.dfy | the threshold hooks on a stored session |
| MessageEvents.dfy | versioned patch, insert, remove, fix and delete of a message |
| InsertOrder.dfy | when the order of the items of an insert matters |
| MessageAuthors.dfy | when an event is accepted, and by whom, in both ledgers |
| PostgresLedger.dfy | the Postgres session ledger and its event log |
| SseFraming.dfy | incremental framing of event streams, in both clients (a subset of section 9.2.5 of the WHATWG HTML Living Standard) |
| SseLines.dfy | what a stream says without its framing |
| ResponsesText.dfy | the Responses client: the text of a part, once; its calls and its cache |
| CacheableInstructions.dfy | stripping blocks from instructions before a cache key is made |

## How the parts fit

`TurnProtocol` is the centre of the store. Its events are a worker's lock operations and
transactions, each allowed only where the worker's program makes it, and free transactions of the
rest of the service. Its only history variable, `writers`, says which turn appended an item. The
methods of `TurnService.SessionTurnService` keep a ghost trace of such events: `Valid` says that the
tables and the held keys are those of the trace, so every theorem about runs holds of what the code
has written. Those methods show one worker's code without interference between its statements; the
interleavings are those of the protocol.

In `RedisLease` time is part of the state and passes in steps of any length. A worker that has lost
its lease may still be writing, so the theorems about turns are for the in-process lock only.

A UUID of version 5 (section 5.5 of RFC 9562) is a function parameter of which nothing is assumed.
Random UUIDs are parameters too; where a theorem needs one to be new, its `requires` says so.

## Where the code and its documents differ

- A fork keeps the parent's provider state when its basis is at most the fork point
  (crates/santi-db/src/adapter/standalone/soul_runtime/fork.rs:104), while
  docs/contracts/data-model/session-message-model.md:186 says that the child's starts empty. The model
  follows the code, and `ChildStartsWithStateIffBasisIsCopied` says exactly when it starts empty.
- The standalone ledger accepts a delete but stores no deletion mark
  (crates/santi-db/src/adapter/standalone/session_store.rs:280-292), while
  docs/contracts/data-model/session-message-model.md:326 has a soft delete. `ClosedIffFixed` says
  exactly which messages of this store are closed to changes.
- A fork point is compared with soul-session numbers when its range is checked
  (crates/santi-runtime/src/session/fork.rs:104) and with session numbers when messages are copied
  (crates/santi-db/src/adapter/standalone/soul_runtime/fork.rs:57-64). `ForkPoint.CutsAgreeIff` says
  exactly when the two cut at the same messages, and `ForkPoint.OneToolCallShowsIt` that they need not.
- `build_assembly_items` loads messages only
  (crates/santi-runtime/src/session/send/assembly.rs:25-43), so neither the hooks nor the provider see
  a stored compact. `ListedHooks.HooksCountFromTheStart` says exactly when the hooks then fire,
  `ListedHooks.NeverSilentAgain` that they do not stop, and `ListedHooks.ProviderSeesEveryMessage` what
  the provider is given. The theorems of `Compaction` are over arbitrary item sequences.

## Model

| member | source | states |
|---|---|---|
| RedisLease.OkReleaseProvesOwnership | crates/santi-lock/src/adapter/redis.rs:188-224 | Over every run of acquire, renew, expire, drop and release steps, a release that returns Ok means that the guard's token was stored under its key after every step from the acquisition to the release. |
| RedisLease.OkHoldersExclude | crates/santi-lock/src/adapter/redis.rs:101-224 | Two guards of one key that were both released Ok never owned it at the same moment. |
| RedisLease.OkTurnNeverLostOwnership | crates/santi-runtime/src/session/send/turn.rs:296-307 | A turn that ends Ok ran Ok itself and owned its key at every moment until the release. |
| RedisLease.OnlyTimeOrOwnRelease | crates/santi-lock/src/adapter/redis.rs:310-319 | A stored token leaves the store only when time passes its expiry or by the release of its own guard; no other worker's acquire, renewal or release removes it. |
| RedisLease.LostIsForever | crates/santi-lock/src/adapter/redis.rs:267-309 | Once the token of an unreleased guard is gone it never comes back, and its release never succeeds. |
| RedisLease.LeaseLasts | crates/santi-lock/src/adapter/redis.rs:310-319 | Over every run: once put under its key, or renewed when found, a token stays stored while less than ttl passes and its guard makes no release, whatever else happens. |
| RedisLease.LeaseEnds | crates/santi-lock/src/adapter/redis.rs:310-319 | And it is gone when ttl has passed since it was last put or renewed. |
| RedisLease.RunKeepsInv | crates/santi-lock/src/adapter/redis.rs:101-146 | In every run tokens stay unique to one guard and everything stored was generated before. |
| RedisLease.KeysCollideOnlyAcrossThePrefix | crates/santi-lock/src/adapter/redis.rs:147-157 | Two different keys share one lock if and only if one of them starts with the configured prefix and is the trimmed prefix, a colon and the other, which does not. |
| RedisLease.RedisLockClient.AcquireGuard | crates/santi-lock/src/adapter/redis.rs:101-146 | A guard is made exactly when the key was free and the answer arrived; it then owns the key for exactly ttl. A lost answer leaves a token that nobody owns. |
| RedisLease.RedisLockGuard.Renew | crates/santi-lock/src/adapter/redis.rs:277-307 | One wake-up is exactly its steps of the protocol; the task goes on if and only if its script was answered and the token was still stored after the sleep, and is otherwise marked lost. A script that finds the token leaves it stored for exactly ttl more, also when its answer is lost. |
| RedisLease.RedisLockGuard.RenewLoop | crates/santi-lock/src/adapter/redis.rs:267-309 | The loop makes exactly the steps of its wake-ups, up to and including the first that does not renew, and is then marked lost. From a full lease it goes on if and only if every wake-up is answered and sleeps less than ttl, and then the token is stored for a full ttl again. |
| RedisLease.RedisLockGuard.ReleaseInner | crates/santi-lock/src/adapter/redis.rs:187-224 | The result is the protocol's; when Ok, the token was stored at every moment since the call began, and is stored no more. |
| StandaloneLock.InProcessLock.Acquire | crates/santi-lock/src/adapter/standalone.rs:23-38 | A key in the held set is refused as busy and a free one is granted, in both cases leaving exactly the held keys and this one. |
| StandaloneLock.InProcessLock.Release | crates/santi-lock/src/adapter/standalone.rs:42-49 | Exactly this key is given back. |
| StandaloneLock.LockKeyInjective | crates/santi-runtime/src/session/send/mod.rs:230-234 | Different sessions have different lock keys. |
| TurnProtocol.LockExcludes | crates/santi-lock/src/adapter/standalone.rs:23-49 | In every interleaving of sends, compactions, forks and other work, two live workers of one session are one worker, and it holds the key. |
| TurnProtocol.NumberingIsDense | crates/santi-db/src/adapter/standalone/soul_runtime/runtime_port.rs:93-129 | In every interleaving the item numbers of a soul session are exactly those from 1 (from the fork point plus one in a child) to next_seq - 1. |
| TurnProtocol.IntervalIsWhatTheTurnWrote | crates/santi-db/src/adapter/standalone/soul_runtime/runtime_port.rs:345-437 | In every interleaving an item lies in the interval (base, end] of an ended turn if and only if that turn appended it. |
| TurnProtocol.IntervalsAreDisjoint | crates/santi-db/src/adapter/standalone/soul_runtime/runtime_port.rs:60-91 | The intervals of ended turns on one soul session never overlap. |
| TurnProtocol.CompletedTurnsSpell | crates/santi-runtime/src/session/send/turn/body.rs:91-164 | The interval of a completed send is 2n + 1 long: n tool calls, each directly followed by its own result, then a reference to a stored message of the turn's session written by the soul; a completed compaction is its compact alone. |
| TurnProtocol.EntriesNeverChange | crates/santi-db/src/adapter/standalone/soul_runtime/runtime_port.rs:117-159 | Whatever happens later, no item, tool call, tool result or authorship recorded before changes, and soul sessions keep identity and lineage. |
| TurnProtocol.RunKeepsInv | crates/santi-runtime/src/session/send/turn.rs:204-250 | The invariant behind these: exclusion, dense numbering, sound turn rows, unique authorship, and for each live worker that all items after its turn's base are its own and spell its progress. |
| TurnProtocol.SpellsOneMore | crates/santi-runtime/src/session/send/turn/body.rs:191-224 | One append takes what a turn has spelled to the next position of its worker's program, a result only directly after its own call. |
| TurnProtocol.PairsPointwise | crates/santi-runtime/src/session/send/turn/body.rs:91-103 | A spelled stretch has a call at every odd offset and its own result at the next one. |
| TurnProtocol.Apart | crates/santi-lock/src/adapter/standalone.rs:30-33 | Two live workers never stand on one soul session. |
| SoulRuntime.ExecutedKeeps | crates/santi-db/src/adapter/standalone/soul_runtime/runtime_port.rs:60-437 | Each of the store's transactions keeps the unique index, the dense numbering and one item a call, and only extends what was stored. |
| SoulRuntime.AfterKeeps | crates/santi-db/src/adapter/standalone/soul_runtime/runtime_port.rs:93-343 | The same over every list of transactions: soul sessions keep their identity and no stored item, call or result changes. |
| SoulRuntime.AllocatedIs | crates/santi-db/src/adapter/standalone/soul_runtime/runtime_port.rs:98-124 | With dense numbering the allocated number is free, so an append to a stored soul session never meets a conflict. |
| SoulRuntime.SoulForkedKeeps | crates/santi-db/src/adapter/standalone/soul_runtime/fork.rs:92-142 | A fork adds a soul session that starts empty at the fork point, and keeps the tables consistent. |
| SoulRuntime.ChildStartsWithStateIffBasisIsCopied | crates/santi-db/src/adapter/standalone/soul_runtime/fork.rs:92-142 | A new child starts without provider state if and only if the parent has none or its basis lies past the fork point; its frontier, last-seen number and lineage are those of the fork point. |
| Provenance.MarksAreTheLastCompletions | crates/santi-db/src/adapter/standalone/soul_runtime/runtime_port.rs:385-391 | In every reachable store a soul session's last-seen number and provider state are those given to the last completion of a turn on it, or, if there was none, those it was created with (none) or forked with (the parent's, cut to the fork point). |
| Provenance.MemoryIsTheLastWritten | crates/santi-db/src/adapter/standalone/soul_runtime/runtime_port.rs:35-58 | Its memory is the text last written, or the empty one it was created with, or the parent's at the fork. |
| Provenance.TurnsAreAsGiven | crates/santi-db/src/adapter/standalone/soul_runtime/runtime_port.rs:60-91 | In every reachable store a turn has the soul session, trigger, last message and base of the transaction that started it, is running exactly while nothing ended it, and otherwise has the status, error and end of the last transaction that did. |
| Provenance.EntriesAreAsGiven | crates/santi-db/src/adapter/standalone/soul_runtime/runtime_port.rs:163-343 | Each stored call has the turn, each result the call, and each compact the turn, text, range and session that the transaction which added it gave. |
| Provenance.SessionsAreAsMade | crates/santi-db/src/adapter/standalone/soul_runtime/fork.rs:43-55 | A session has no lineage if it was created, and the parent and fork point of its fork otherwise, for ever. |
| Provenance.SoulStep | crates/santi-db/src/adapter/standalone/soul_runtime/runtime_port.rs:345-437 | What any one transaction may do to a soul session: make it, set its marks, write its memory, or raise its next number. |
| SoulRuntime.StandaloneSoulRuntime.AcquireSoulSession | crates/santi-db/src/adapter/standalone/soul_runtime/bootstrap.rs:174-190 | Creates the session's soul session if there is none and returns the one that the session has; the tables only grow. |
| SoulRuntime.StandaloneSoulRuntime.StartTurn | crates/santi-db/src/adapter/standalone/soul_runtime/runtime_port.rs:60-91 | A missing soul session or a used id is refused without a trace; otherwise the turn is running with base next_seq - 1. |
| SoulRuntime.StandaloneSoulRuntime.AppendMessageRef | crates/santi-db/src/adapter/standalone/soul_runtime/runtime_port.rs:93-161 | Allocates the next number for a stored message; a missing message rolls the allocation back. |
| SoulRuntime.StandaloneSoulRuntime.AppendToolCall | crates/santi-db/src/adapter/standalone/soul_runtime/runtime_port.rs:163-248 | The call's row and its item appear together or not at all. |
| SoulRuntime.StandaloneSoulRuntime.AppendToolResult | crates/santi-db/src/adapter/standalone/soul_runtime/runtime_port.rs:250-343 | The result lands on the soul session of its call's item; a second result of one call is refused. |
| SoulRuntime.StandaloneSoulRuntime.AppendCompact | crates/santi-db/src/adapter/standalone/soul_runtime/compact.rs:50-140 | The compact's row and its item appear together, on the soul session of its turn. |
| SoulRuntime.StandaloneSoulRuntime.CompleteTurn | crates/santi-db/src/adapter/standalone/soul_runtime/runtime_port.rs:345-406 | Sets end to next_seq - 1 and status completed, and assigns last-seen and provider state of the soul session; what these then are is MarksAreTheLastCompletions. |
| SoulRuntime.StandaloneSoulRuntime.FailTurn | crates/santi-db/src/adapter/standalone/soul_runtime/runtime_port.rs:408-437 | Sets end and status failed, whatever the status was before, and touches nothing else. |
| SoulRuntime.StandaloneSoulRuntime.ForkSoulSession | crates/santi-db/src/adapter/standalone/soul_runtime/fork.rs:16-145 | The loop of copied rows and the child's row, all or nothing; an existing id returns the existing row. |
| SessionStore.StoredTextIsTheParts | crates/santi-db/src/adapter/standalone/session_store/mapping.rs:33-87 | In every reachable store each message's text is the joined text of its parts, all of them text. |
| SessionStore.StoreKeepsTable | crates/santi-db/src/adapter/standalone/session_store.rs:130-190 | In every reachable store each session's messages are also numbered 1, 2, 3, ... in the order of insertion. |
| SessionStore.ForkKeepsTheTranscript | crates/santi-db/src/adapter/standalone/soul_runtime/fork.rs:57-90 | A fork into a session without messages gives the child the numbers and the provider input of the parent's messages up to the fork point, though parts are not copied; no other session changes. |
| SessionStore.CopyReadsTheSame | crates/santi-core/src/service/session/kernel/transcript.rs:10-37 | The copy of a sound row has its number and reads the same to the provider. |
| SessionStore.SoulForkedKeepsTable | crates/santi-db/src/adapter/standalone/soul_runtime/fork.rs:57-90 | A fork that copies anything copies into an empty session, row by row, and leaves all other sessions' rows. |
| SessionStore.ClosedIffFixed | crates/santi-db/src/adapter/standalone/session_store.rs:256-299 | A message of this store refuses every change if and only if it is fixed: deletion does not close it. |
| SessionStore.AcceptedChangeIsApplied | crates/santi-db/src/adapter/standalone/session_store.rs:256-299 | An accepted change stores what the event makes of the message, except for a deletion mark, in the message's one row, and leaves all others. |
| SessionStore.ContentJoins | crates/santi-core/src/service/session/kernel/transcript.rs:10-37 | The content of parts: texts are joined by a blank line, images say nothing. |
| MessageAuthors.EveryChangeIsByTheAuthor | crates/santi-db/src/adapter/standalone/session_store.rs:256-299 | In every run of the standalone store an accepted change is by the row's author, who is the one with whom an earlier transaction inserted it, as an appended message or as a copy of the parent's. |
| MessageAuthors.RowsAreInserted | crates/santi-db/src/adapter/standalone/soul_runtime/fork.rs:57-90 | Every row was inserted by one transaction with the author, text, state and number of the appended message, or of the forked parent's message. |
| SessionStore.DeleteOnlyRaisesTheVersion | crates/santi-db/src/adapter/standalone/session_store.rs:280-292 | An accepted delete leaves content and state and raises the version, nothing else. |
| SessionStore.StandaloneSessionLedger.AppendMessage | crates/santi-db/src/adapter/standalone/session_store.rs:239-254 | Appends the flattened text under the session's next number; images, a missing session and a used id are refused without a trace. |
| SessionStore.StandaloneSessionLedger.ApplyMessageEvent | crates/santi-db/src/adapter/standalone/session_store.rs:256-299 | Rewrites the one row by the event, with the text of the new parts; every refusal leaves the table. |
| SessionStore.StandaloneSessionLedger.ListMessages | crates/santi-db/src/adapter/standalone/session_store.rs:192-204 | The session's messages in order, and no others. |
| TurnService.SessionTurnService.Execute | crates/santi-runtime/src/session/send/mod.rs:297-352 | If the key is held the send is busy and changes nothing. If it succeeds, it did exactly these steps in this order: acquire, soul session, trigger message, its item, start, each call and its result, reply message, its item, completion, release; its turn is spelled, the reply is the non-blank text of all responses and is stored in the session, the key is free, the soul session has seen exactly the reply, and its provider state is the stored response id on the number of the reply's item, or none without an id. |
| TurnService.SessionTurnService.RunTurnStartup | crates/santi-runtime/src/session/send/turn.rs:79-182 | Soul session, trigger message and its item, in this order; the provider input is the projection of the ledger with the trigger in it. On any failure the worker is outside a turn, so that the key can be released. |
| TurnService.SessionTurnService.RunTurnWorker | crates/santi-runtime/src/session/send/turn.rs:204-250 | When Ok, exactly start, calls and results, reply, completion, release, and the turn is spelled. Otherwise either it never started and its guard was dropped with tables and held keys as before, or the turn's row is failed with this error (or that failure was lost) and the key is free. |
| TurnService.SessionTurnService.RunTurnBody | crates/santi-runtime/src/session/send/turn/body.rs:32-189 | Exactly the calls and results of all rounds, then the reply and the completion; the reply's one part is the text of all responses, and blank text is refused. |
| TurnService.SessionTurnService.RunRounds | crates/santi-runtime/src/session/send/turn/body.rs:43-106 | The requests of the loop form a trace in which each follows up on the one before with the outputs of its calls; text, response id and the items appended are those of all responses, call by call. |
| TurnService.SessionTurnService.HandleToolCall | crates/santi-runtime/src/session/send/turn/body.rs:191-224 | Exactly the call's item and then its result's, and the output is the tool's under the call's id. |
| TurnService.SessionTurnService.WriteReply | crates/santi-runtime/src/session/send/turn/body.rs:114-164 | Exactly message, item and completion; the message is stored, the soul session's last-seen is its number and its provider state the response id on the item's number. Each failure leaves the worker in its turn. |
| TurnService.SessionTurnService.FailTurnOnError | crates/santi-runtime/src/session/send/turn.rs:281-294 | The turn's row is failed with the error, or, if the write is lost, nothing is stored; either way the worker is past its turn. |
| TurnService.SessionTurnService.ExecuteCompact | crates/santi-runtime/src/session/compact.rs:82-201 | A compaction is a turn under the same lock, with exactly these steps: acquire, soul session, start, compact, completion, release. The range is the requested one, by default 1 to the last message; a blank summary is refused with the key given back. |
| TurnService.SessionTurnService.Ask | crates/santi-runtime/src/session/send/turn/body.rs:43-82 | The request continues the trace, and what is taken is the response's text, calls and completion id up to the completion. |
| TurnService.SessionTurnService.Trigger | crates/santi-runtime/src/session/send/turn.rs:101-143 | A trigger is a stored, fixed message of this session: for text one is appended under the account, for a seed under the system and its actor, with exactly that text; an existing message changes nothing and is accepted if and only if it is stored, of this session and fixed. |
| TurnService.CallEventsAppend | crates/santi-runtime/src/session/send/turn/body.rs:91-103 | The items of the calls of several rounds are those of each round, one after the other. |
| TurnService.TakeEvents | crates/santi-runtime/src/session/send/turn/body.rs:60-82 | The loop takes the text and the calls before the first completion, an error that comes first ends it, and a stream with neither is taken whole without a response id. |
| ChatClient.MergingIsConfluent | crates/santi-api/src/chat_client/mod.rs:276-294 | Any interleaving of tool-call deltas with the same deltas for each index, in the same order, gives the same drafts. |
| ChatClient.MergeAllAt | crates/santi-api/src/chat_client/mod.rs:276-294 | The draft of an index depends on the deltas of that index alone. |
| StreamedCalls.DraftIsItsDeltas | crates/santi-api/src/chat_client/mod.rs:276-294 | For every list of deltas and every index: there is a draft exactly if a delta was sent, its id and name are the first ones sent, and its arguments are all the fragments in order. |
| StreamedCalls.CallsAreTheDeltas | crates/santi-api/src/chat_client/mod.rs:225-394 | For every error-free response: before a choice finishes there are no calls; after it the calls are those of the deltas up to that choice, one for each index in ascending order, with the first id (or a generated one), the first name and the concatenated arguments, or an empty object for blank ones. |
| StreamedCalls.TextIsTheDeltas | crates/santi-api/src/chat_client/mod.rs:257-268 | The text emitted for a response is the content of all its deltas, in order. |
| StreamedCalls.IdIsTheFirst | crates/santi-api/src/chat_client/mod.rs:230-234 | The id of a response is the first that a payload carries up to the one that finishes it, or a generated one; later ids change nothing. |
| StreamedCalls.CallsAndCompletionShareTheId | crates/santi-api/src/chat_client/mod.rs:296-325 | All calls and the completion of a response carry that id, also when the stream just ends. |
| ChatClient.CallsComeOutInOrder | crates/santi-api/src/chat_client/mod.rs:326-331 | Every draft comes out as one call, the i-th call being that of the i-th smallest index. |
| ChatClient.OneCompletionInEveryStream | crates/santi-api/src/chat_client/mod.rs:127-131 | Every error-free response yields exactly one completion, and only text after it, so that every call comes before. |
| ChatClient.CallsDependOnEachIndexAlone | crates/santi-api/src/chat_client/mod.rs:225-318 | Two responses whose deltas agree index by index, the last payload's included, end with the same calls and completion or the same error, however they were divided into payloads; their response ids must be equal. |
| ChatClient.PayloadsDrafts | crates/santi-api/src/chat_client/mod.rs:257-274 | After any payloads without error the drafts are the merge of all their deltas. |
| ChatClient.SortedKeys | crates/santi-api/src/chat_client/mod.rs:326-331 | The keys of the ordered map, smallest first. |
| ChatClient.ChatCompletionsClient.StreamVerbose | crates/santi-api/src/chat_client/mod.rs:72-133 | The loop yields the events, leaves the cache and ends with the error of the response as specified. |
| ChatClient.ChatCompletionsClient.MapMessages | crates/santi-api/src/chat_client/mod.rs:149-176 | A follow-up replays the cached list and appends the tool outputs; a missing entry is the only error. |
| ChatClient.ChatStreamState.HandlePayload | crates/santi-api/src/chat_client/mod.rs:225-255 | One payload's choices in order; a failure keeps all its events back. |
| ChatClient.ChatStreamState.CompleteChoice | crates/santi-api/src/chat_client/mod.rs:296-318 | Completes once: calls, cache entry and completion, in this order; a second finish adds nothing. |
| ChatClient.ChatStreamState.MergeToolCallDelta | crates/santi-api/src/chat_client/mod.rs:276-294 | Updates exactly the draft of the delta's index; what drafts then are is DraftIsItsDeltas. |
| ToolLoop.RequestsGrowByTheirAnswers | crates/santi-api/src/chat_client/mod.rs:149-193 | For every script of the provider with distinct response ids, whatever other turns cache under ids of their own, each request of the loop is the first request followed by, for every round before, one assistant message with its text and calls and one tool message for each call, with its id, in order. |
| StreamedCalls.RoundIsReplayed | crates/santi-api/src/chat_client/mod.rs:333-359 | In the loop each request is the one before it, then one assistant message with the text said (none if empty) and every call under its own id, name and arguments, then the output of each call under that call's id. |
| StreamedCalls.FirstRequestIsTheInput | crates/santi-api/src/chat_client/mod.rs:162-176 | The first request is the instructions as system message, unless blank, and then the input, message by message. |
| StreamedCalls.StoredIdIsTheLastCalls | crates/santi-runtime/src/session/send/turn/body.rs:63-106 | The response id that a turn stores is that of its last call, or without calls that of its only response's completion. |
| ToolLoop.FollowUpNeverMisses | crates/santi-api/src/chat_client/mod.rs:178-188 | A follow-up request never hits the missing-cache error, whatever other turns put into the cache. |
| ToolLoop.ResponseIsReplayable | crates/santi-api/src/chat_client/mod.rs:296-359 | Once a response completes its calls carry one response id, and under it the cache holds the request's list and the assistant message with exactly these calls and the text spoken before them, also if the stream fails later. |
| ToolLoop.StoppingLosesNoCall | crates/santi-runtime/src/session/send/turn/body.rs:63-82 | Stopping at the completion loses no call. |
| ToolLoop.NextRequest | crates/santi-runtime/src/session/send/turn/body.rs:43-58 | From every state of the loop the next request can be made and continues the trace. |
| ForkService.OkForkHasTheCallersLineage | crates/santi-runtime/src/session/fork.rs:71-132 | Whatever the id hash does, an Ok fork names a stored child whose parent and fork point are the caller's. |
| ForkService.RepeatedForkIsStable | crates/santi-runtime/src/session/fork.rs:81-96 | Repeating a request that succeeded gives the same result and changes nothing, after any list of transactions in between. |
| ForkService.ExistingChildIsReturned | crates/santi-runtime/src/session/fork.rs:81-112 | When the child exists, the range of the fork point is not checked again: the request succeeds unchanged unless the lock is held. |
| ForkService.ForkAltersNothing | crates/santi-db/src/adapter/standalone/soul_runtime/fork.rs:43-142 | No fork alters a soul session, an item, a turn, or the messages of a session that has a soul session. |
| ForkService.ChildStays | crates/santi-runtime/src/session/fork.rs:87-96 | A child keeps its lineage through every later state of the store. |
| ForkService.OneLineageForEachChild | crates/santi-runtime/src/session/fork.rs:81-102 | Two requests with one child id that both have their child agree on parent and fork point. |
| ForkService.OutOfRangeIsRefused | crates/santi-runtime/src/session/fork.rs:104-112 | Without a child, a fork point outside the parent's own numbers is refused with the tables unchanged and the key given back; so a fork that makes a child was in range. |
| ForkService.KeyIsGivenBackUnless | crates/santi-runtime/src/session/fork.rs:60-132 | Only a missing parent and a copy that fails leave the parent's key held, and no other key is touched. |
| ForkService.HashInputsCollide | crates/santi-runtime/src/session/fork.rs:72-79 | The witness: two named requests have one hash input, so they derive one child under every hash. |
| ForkIds.InputsDifferWithoutColons | crates/santi-runtime/src/session/fork.rs:72-79 | Requests of one parent, or of parents without a colon, have one hash input if and only if they are equal. |
| ForkIds.ParentsCollideIff | crates/santi-runtime/src/session/fork.rs:72-79 | For two different parents and any fork points, request ids with one hash input exist if and only if one parent is the other, a colon and the other's fork point, and then ends or goes on with a colon. |
| ForkIds.CollisionIsRefused | crates/santi-runtime/src/session/fork.rs:81-102 | When the colliding child is another request's, the second request returns the lineage error, changes no table and gives the key back. |
| ForkService.ForkKeeps | crates/santi-runtime/src/session/fork.rs:55-151 | Every outcome leaves the store consistent and only extended. |
| ForkService.SessionForkService.Fork | crates/santi-runtime/src/session/fork.rs:55-151 | The steps of the service: on its early error exits and a failed copy the parent's key stays held, otherwise it is given back. |
| ForkPoint.CutsAgreeIff | crates/santi-runtime/src/session/fork.rs:104-112 | In every reachable store and for every fork point in range: the messages copied are those referenced by the parent's items up to the fork point if and only if these items reference no other message and as many of them bring no message as they outnumber the copies. |
| ForkPoint.NoRoomBeforeTheCut | crates/santi-db/src/adapter/standalone/soul_runtime/fork.rs:57-64 | While the session has as many messages as the fork point says, the two agree if and only if the parent is not itself a child and every item up to the fork point is the first reference to one of the copied messages. |
| ForkPoint.OneToolItemShiftsTheCut | crates/santi-db/src/adapter/standalone/soul_runtime/fork.rs:57-64 | Then one tool call, result or compact up to the fork point is enough: a message is copied that no item up to it references. |
| ForkPoint.OneToolCallShowsIt | crates/santi-runtime/src/session/fork.rs:104-112 | The witness: after one send with one tool call, fork point 2 is let through and the two differ. |
| ForkHandoff.HandoffHappensOnce | crates/santi-runtime/src/session/effect.rs:123-277 | Over any number of attempts for one key, one after the other with other work in between, at most one child is made and at most one seeded send succeeds, into that child, exactly when the row says completed. |
| ForkHandoff.OutcomeIsFinal | crates/santi-runtime/src/session/effect.rs:142-154 | A completed row stays as it is with no further send or child, and a result reference once set never changes or clears. |
| ForkHandoff.RetryReusesTheChild | crates/santi-runtime/src/session/effect.rs:193-224 | A retry after a failed send completes into the child of the earlier attempt and makes none of its own. |
| ForkHandoff.SameKeySameRequest | crates/santi-runtime/src/session/effect.rs:127-130 | Two handoffs share an effect row if and only if they make the same fork request. |
| ForkHandoff.KeysTellHandoffsApart | crates/santi-runtime/src/session/effect.rs:127-130 | Handoffs whose hook ids have no colon share a row if and only if they agree in session, hook, turn and fork point. |
| ForkHandoff.LateAttemptFinishesNothing | crates/santi-runtime/src/session/effect.rs:157-190 | An attempt whose row another one created first updates by an id that is not stored: it changes no row. It still runs: with the child there and the key free it makes no child, and seeds the child again. |
| ForkHandoff.RunKeepsInv | crates/santi-runtime/src/session/effect.rs:226-277 | The invariant behind these, over every run of attempts and other work. |
| ForkHandoff.SessionEffectService.ExecuteForkHandoff | crates/santi-runtime/src/session/effect.rs:123-191 | The steps of the service on ledger, store and lock, and its report: a completed row is returned unchanged, a row that cannot be created is a failure, and otherwise the row is reported as completed or failed as the run went, with the held keys those of the fork. |
| ForkHandoff.SessionEffectService.FinishEffect | crates/santi-runtime/src/session/effect.rs:226-277 | Completed with the child, or failed with the child or the earlier reference and the error; without a row the caller is told so. |
| HandoffRaces.OneChildHoweverAttemptsOverlap | crates/santi-runtime/src/session/effect.rs:123-277 | However the steps of any number of attempts interleave with each other and with other work, and wherever they are cut off: at most one child is made, no attempt seeds twice, the row refers to nothing but that child, and a completed row means that a send succeeded. |
| HandoffRaces.CompletedIsFinalIff | crates/santi-runtime/src/session/effect.rs:145-154 | In every such interleaving a completed row stays as it is, whatever follows, if and only if no attempt that read its id is still about to fork, to send or to record a failure. |
| HandoffRaces.FailsOnTheRow | crates/santi-runtime/src/session/effect.rs:260-275 | Such an attempt, by itself, can turn the completed row into a failed one: the update has no guard. |
| HandoffRaces.RunKeeps | crates/santi-runtime/src/session/effect.rs:157-190 | The invariant behind these, over every interleaving. |
| ForkHandoff.StandaloneEffectLedger.CreateEffect | crates/santi-db/src/adapter/standalone/effect_ledger.rs:107-133 | Creates the row of a key or returns the one there is, unchanged. |
| ForkHandoff.StandaloneEffectLedger.UpdateEffect | crates/santi-db/src/adapter/standalone/effect_ledger.rs:135-157 | Rewrites the row with this id and no other, and reports whether there was one. |
| ReplyStore.SubscriberYieldsTheLog | crates/santi-api/src/handler/stim.rs:92-120 | For every interleaving of updates, subscription and receives, a subscriber yields the history and then log events with strictly increasing numbers, and a prefix of the log if it was never more than 64 behind. |
| ReplyStore.EndedWithTheTerminalEvent | crates/santi-api/src/handler/stim.rs:97-110 | A stream that ended yielded the terminal event once and last, also after lagging, and the whole log if it never fell more than 64 behind. |
| ReplyStore.FinishedStreamsEnd | crates/santi-api/src/handler/stim.rs:102-119 | Once the reply is finished, a subscriber that keeps receiving reaches that end within a computed number of steps. |
| ReplyStore.NextIsTheOldestRetained | crates/santi-api/src/handler/stim.rs:102-119 | A live subscriber yields the event at its position next, or, when more than 64 are unread, the oldest of the last 64 after one more resumption; no event that the channel still holds is skipped. |
| ReplyStore.RunKeepsInv | crates/santi-api/src/handler/stim.rs:92-120 | The invariant behind these, over every run. |
| ReplyStore.StreamReplyEvents | crates/santi-api/src/handler/stim.rs:92-120 | The loop of the handler against scripted writers: it ends exactly when the reply is finished, with the history first and the terminal event last. |
| ReplyStore.ReplyIdInjective | crates/santi-api/src/http/protocol_reply.rs:55-56 | Reply ids of different counters differ. |
| ReplyStore.ProtocolReplyStore.CreateReply | crates/santi-api/src/http/protocol_reply.rs:49-84 | A fresh id with an empty record; no other reply changes. |
| ReplyStore.ProtocolReplyStore.Update | crates/santi-api/src/http/protocol_reply.rs:133-157 | One numbered event and its effect on the snapshot, nothing for an unknown or finished reply; numbering, a single last terminal event and a true snapshot are kept. |
| ReplyStore.ProtocolReplyStore.GetSnapshot | crates/santi-api/src/http/protocol_reply.rs:86-92 | The text is all deltas of the log in order, the status pending, streaming or the outcome as the log says, the error that of a final failure. |
| ReplyStore.SnapshotIsTheLog | crates/santi-api/src/http/protocol_reply.rs:103-133 | In every run: the text is the concatenation of the deltas of all text events; the status is pending if and only if the log is empty, streaming if and only if it is not and no terminal event came, and otherwise the outcome; there is an error if and only if the last event is a failure, and then that one. |
| ReplyStore.ProtocolReplyStore.Subscribe | crates/santi-api/src/http/protocol_reply.rs:94-102 | History, terminal flag and position are those of one moment. |
| Compaction.HiddenIffCovered | crates/santi-runtime/src/session/send/assembly.rs:83-125 | A message is hidden by the effective compacts if and only if some compact covers it. |
| Compaction.InsideAnEffectiveOne | crates/santi-runtime/src/session/send/assembly.rs:83-106 | Every compact's range lies inside an effective one at or after it. |
| Compaction.PruningIsInvisible | crates/santi-runtime/src/session/send/assembly.rs:55-106 | Dropping superseded compacts changes nothing that reaches the provider, and doing it twice drops nothing more. |
| Compaction.ProjectionIsTheInput | crates/santi-runtime/src/session/send/assembly.rs:55-81 | The computation by index sets equals a front-to-back reading, in item order. |
| Compaction.BuildAssemblyItems | crates/santi-runtime/src/session/send/assembly.rs:15-45 | One item for each message, in ledger order. |
| Compaction.HookReplacesWhatItCounted | crates/santi-runtime/src/hooks.rs:113-171 | Appending the emitted compact removes exactly the messages the hook counted and supersedes no earlier compact; what is added at the end is one system message with the range from past the last compact to the reply and the trimmed template or default text. |
| Compaction.HookFiresOnce | crates/santi-runtime/src/hooks.rs:113-171 | The hook is silent afterwards on the same tail if and only if its threshold is at least 1. |
| Compaction.HandoffFiresWithCompact | crates/santi-runtime/src/hooks.rs:242-300 | A handoff is asked for exactly when a user's turn trips a compact hook of the same threshold, at the end of the same range; a seeded turn never asks for another. |
| ListedHooks.HooksCountFromTheStart | crates/santi-runtime/src/session/send/turn.rs:332-341 | In every reachable store, on the list that the hooks are given after a turn: the compact hook fires if and only if there is a reply and the session has reached its threshold in messages, its range always starts at 1, and the handoff hook fires exactly then on a user's turn, whatever compacts are stored. |
| ListedHooks.NeverSilentAgain | crates/santi-runtime/src/session/send/turn.rs:332-341 | Once it has fired for a session it fires after every later turn of it, whatever transactions come between. |
| ListedHooks.StoredCompactIsNotSeen | crates/santi-runtime/src/session/send/assembly.rs:25-43 | After the emitted compact is stored the hook emits the same action again; given the stored compact it would be silent, unless its threshold is 0. |
| ListedHooks.StoredCompactionShowsIt | crates/santi-runtime/src/session/send/assembly.rs:25-43 | The witness: one send, its compaction stored, and the hook asks for it again. |
| ListedHooks.ProviderSeesEveryMessage | crates/santi-runtime/src/session/send/assembly.rs:15-81 | From a stored session the provider is given every non-blank message in order, and no compact. |
| ListedHooks.ProviderGetsTheStoredText | crates/santi-core/src/service/session/kernel/transcript.rs:10-37 | In every reachable store the provider is given the stored text of each non-blank message of the session, in order, under the role of its author: user, assistant or system. |
| Compaction.EmittedRange | crates/santi-runtime/src/hooks.rs:114-155 | The emitted range is not empty and lies past every earlier compact. |
| MessageEvents.ApplyMessageEvent | crates/santi-db/src/message_events.rs:10-88 | Rejections in the order of the checks, and otherwise the new parts, state, deletion mark and next version. |
| MessageAuthors.AcceptedIff | crates/santi-db/src/message_events.rs:10-88 | An event is accepted if and only if it is by the message's author, at its version, the message is neither deleted nor fixed, and the payload fits its parts; then identity and author stay, the version is one higher, and only a fix or a delete closes it. |
| MessageAuthors.FirstReasonIsTold | crates/santi-db/src/message_events.rs:17-43 | Of several reasons to refuse an event the first of author, version, deleted, fixed is told. |
| MessageAuthors.PatchesActAlone | crates/santi-db/src/message_events.rs:45-52 | Patches act on each part alone: they are accepted if and only if all indexes exist and each part takes its own, and each part then is what its own patches make of it. |
| MessageAuthors.PatchedPart | crates/santi-db/src/message_events.rs:108-132 | A patch is accepted if and only if it is an object and the fields that then hold, the merge's winning, make a text or an image part, which is the new part. |
| MessageAuthors.NewPartsIff | crates/santi-db/src/message_events.rs:90-106 | A payload is accepted by the parts if and only if patches fit, the i-th smallest insert index is at most the count so far, and removed indexes exist. |
| MessageEvents.InsertOrderDoesNotMatter | crates/santi-db/src/message_events.rs:53-62 | With distinct indexes the order of the items in an insert does not matter. |
| MessageEvents.EqualIndexesAreOrdered | crates/santi-db/src/message_events.rs:55-60 | With equal indexes it does: for all parts and every index, the later of two items ends up directly in front of the earlier. |
| InsertOrder.OrderMattersOnlyWithinAnIndex | crates/santi-db/src/message_events.rs:53-62 | For all parts and any two orders of the same items: both are refused alike, and when accepted they give the same parts if and only if the items of every index come in the same order. |
| InsertOrder.SwapIsVisibleIff | crates/santi-db/src/message_events.rs:53-62 | Swapping two neighbours of an accepted insert is visible if and only if their indexes are equal and their parts differ. |
| InsertOrder.OneIndexReverses | crates/santi-db/src/message_events.rs:55-60 | Any number of items at one index end up there in reverse. |
| InsertOrder.InsertAllInjective | crates/santi-db/src/message_events.rs:53-62 | With the indexes fixed, the parts after an insert determine the inserted items. |
| InsertOrder.SortIsStable | crates/santi-db/src/message_events.rs:53-54 | The sort keeps the items of one index in the order given. |
| MessageEvents.InsertThenRemove | crates/santi-db/src/message_events.rs:53-77 | Removing the indexes of a successful insert restores the parts if and only if the indexes are distinct. |
| MessageEvents.RemoveThenInsert | crates/santi-db/src/message_events.rs:53-77 | Removing parts and inserting them again at their indexes is always accepted and restores the parts. |
| MessageEvents.PatchesComposeExactly | crates/santi-db/src/message_events.rs:108-132 | Two patches of one part amount to their merge if and only if the second does not need a field that the change of type lost. |
| MessageEvents.RetypingLosesFields | crates/santi-db/src/message_events.rs:108-132 | A patch to an image and back to text fails where the merged patch succeeds. |
| MessageEvents.PatchLoop | crates/santi-db/src/message_events.rs:45-52 | The patches in order, each on the result of those before, up to the first error. |
| MessageEvents.InsertLoop | crates/santi-db/src/message_events.rs:53-62 | The items in ascending order of index, each checked against the parts as they then are. |
| MessageEvents.RemoveLoop | crates/santi-db/src/message_events.rs:63-77 | Distinct indexes, all checked first, removed from the highest down. |
| PostgresLedger.LedgerIsEventSourced | crates/santi-db/src/adapter/postgres/session_ledger/mod.rs:270-399 | After every run each stored message is the fold of its event rows over the message as inserted; base versions are 1, 2, 3, ..., the version is one more than their number, and no row follows a fix or a delete. |
| MessageAuthors.EveryEventIsByTheAuthor | crates/santi-db/src/adapter/postgres/session_ledger/mod.rs:309-335 | After every run each event row is by the author with whom its message was inserted. |
| PostgresLedger.NumbersAreDense | crates/santi-db/src/adapter/postgres/session_ledger/mod.rs:205-225 | After every run the messages of each session are numbered 1, 2, 3, ... without gap or repetition. |
| PostgresLedger.EventIdsAreUnique | crates/santi-db/src/db/migrations/0001_init.sql:48-60 | After every run no two rows of the log have one id. |
| PostgresLedger.NothingAfterFixOrDelete | crates/santi-db/src/adapter/postgres/session_ledger/mod.rs:309-335 | Once a fix or a delete is in the log every further event of the message is rejected. |
| PostgresLedger.MutatePreserves | crates/santi-db/src/adapter/postgres/session_ledger/mod.rs:270-399 | One accepted event keeps every message the fold of its rows. |
| PostgresLedger.DbSessionLedger.AppendMessage | crates/santi-db/src/adapter/postgres/session_ledger/mod.rs:160-268 | The message, its relation and the next number appear together, or nothing does. |
| PostgresLedger.DbSessionLedger.ApplyMessageEvent | crates/santi-db/src/adapter/postgres/session_ledger/mod.rs:270-399 | The event row and the rewritten message appear together, or nothing does. |
| PostgresLedger.DbSessionLedger.HighestSeq | crates/santi-db/src/adapter/postgres/session_ledger/mod.rs:205-225 | The highest number of the session, 0 if it has none. |
| SseFraming.IncrementalIsBatch | crates/santi-api/src/chat_client/mod.rs:99-125 | Frames and remainder depend only on the concatenation of the chunks, never on where they were cut. |
| SseFraming.PrintedFramesReadBack | crates/santi-api/src/chat_client/mod.rs:107-117 | Frames printed with blank-line terminators are read back if and only if none contains a blank line or ends in a newline. |
| SseLines.EveryDataLineIsRead | crates/santi-api/src/chat_client/mod.rs:107-131 | Framing adds and takes away nothing: a stream is read without error if and only if every data line of its whole text parses, and the payloads then are those lines, parsed, in order; all other lines are skipped wherever they stand. |
| SseLines.ChatLineIs | crates/santi-api/src/chat_client/mod.rs:396-405 | A line has data exactly if, trimmed, it is the prefix and something that is neither blank nor the end mark. |
| SseFraming.DataParsersAgree | crates/santi-api/src/link_client/events.rs:216-227 | The two clients' line parsers agree on a line if and only if its data prefix is not doubled. |
| SseFraming.ReadStream | crates/santi-api/src/link_client/mod.rs:76-99 | The loop of either client reads the payloads, and fails, as the concatenated text says; a connection that breaks fails it after the payloads of the complete frames. |
| SseFraming.DrainBuffer | crates/santi-api/src/chat_client/mod.rs:107-116 | The inner loop cuts off exactly the complete frames and leaves the remainder. |
| SseFraming.FailureIsFinal | crates/santi-api/src/chat_client/mod.rs:102-125 | A bad frame among the first chunks decides what is read from the whole stream. |
| ResponsesText.PartTextOnce | crates/santi-api/src/link_client/events.rs:72-134 | However many done events repeat a part's text, the emitted text of the part is that text once, if and only if no deltas were sent for it or they concatenate to it. |
| ResponsesText.EmittedText | crates/santi-api/src/link_client/events.rs:72-134 | For every stream without error: the text emitted for a part is its leading done text, if any, and then all its deltas. |
| ResponsesText.CallsAreTheItems | crates/santi-api/src/link_client/events.rs:136-197 | In every error-free stream an event makes a call if and only if it finishes a function-call item, with the response id named last before it and the item's own id, call id, name and arguments. |
| ResponsesText.CompletionCachesTheItems | crates/santi-api/src/link_client/events.rs:199-214 | A completion under an id caches under it the item last finished at each index, if there is one, and changes no other entry; one without an id caches nothing. |
| ResponsesText.StreamState.HandleVerboseGatewayEvent | crates/santi-api/src/link_client/events.rs:72-117 | Each gateway event's effect on the stream's state and what it emits, the state after an error included. |
| ResponsesText.StreamState.MaybeEmitTextDone | crates/santi-api/src/link_client/events.rs:119-134 | Done text is emitted once for a part that has not streamed, and never when empty. |
| ResponsesText.StreamState.HandleOutputItemDone | crates/santi-api/src/link_client/events.rs:136-157 | The item is recorded, also when the call is then refused; a function call becomes a call event or an error. |
| CacheableInstructions.NormalizedIgnoresBlockText | crates/santi-api/src/link_client/request.rs:85-115 | The normalized instructions do not depend on text without '<' inside a closed santi-meta or santi-runtime block, wherever the block sits. |
| CacheableInstructions.TextOutsideStays | crates/santi-api/src/link_client/request.rs:91-115 | What stands outside blocks stays: a text without a start tag is unchanged, text before the first block is kept, the block goes, and what follows it is treated the same way; an unclosed block takes all that follows. |
| CacheableInstructions.WordsAreSeparated | crates/santi-api/src/link_client/request.rs:85-89 | Words are separated by white space and by nothing else. |
| CacheableInstructions.UntaggedTextIsItsWords | crates/santi-api/src/link_client/request.rs:85-89 | Instructions without tags are normalized to their words joined by single spaces. |
| CacheableInstructions.StripTagBlock | crates/santi-api/src/link_client/request.rs:91-115 | The loop terminates and strips every block, an unclosed one to the end of the text. |
| CacheableInstructions.NormalizeCacheableInstructions | crates/santi-api/src/link_client/request.rs:85-89 | Both kinds of block are stripped and the words joined by single spaces. |
| CacheableInstructions.StripOwnBlock | crates/santi-api/src/link_client/request.rs:95-112 | Stripping around a block of its own tags does not see the block's text. |
| CacheableInstructions.StripAroundOther | crates/santi-api/src/link_client/request.rs:95-112 | Stripping keeps a block of the other tags whole or removes it whole, by what stands around it alone. |

## Left out

- TurnService.SessionTurnService.Execute: one worker's statements run without other workers between them; interleavings are stated of the protocol, and the hooks that run after the release are modelled on their own.
- ForkHandoff.HandoffHappensOnce: attempts for one key run one after the other and ledger writes succeed; HandoffRaces has attempts that overlap and are cut off anywhere, where several may send.
- HandoffRaces.OneChildHoweverAttemptsOverlap: one call of the fork service is one step, since it holds the parent's key; a failing ledger write ends its attempt.
- ForkService.OkForkHasTheCallersLineage: the generated soul-session id must be new; a repeated random id would return the row that has it.
- ReplyStore.StreamReplyEvents: the branch for a closed channel is not modelled, since the store keeps every sender.
- ResponsesText.StreamState.HandleVerboseGatewayEvent: completed items are kept as a map by index where the program stores the list of their values in the cache; the sequence counter of opaque events and the building of events from payloads are left out.
- ChatClient.ChatCompletionsClient.StreamVerbose: payloads are decoded values; which strings are JSON is a parameter, and framing is SseFraming's.
- The HTTP API, its schemas, telemetry, configuration, prompt rendering, memory reads, provider probing and hook loading: no state worth a proof.
- The internals of sqlx, Redis, tokio and reqwest: a transaction and a script are atomic, unique keys are enforced, a broadcast channel keeps the last 64 values.
- SessionStore.StandaloneSessionLedger.ApplyMessageEvent: the source reads the row and updates it in separate statements, and the update has no guard on the version; here it is one step, so two changes that interleave and lose one of them are not modelled.
- The append of a message in the standalone store reads and inserts in separate statements; it is one step here, and its unique columns turn a concurrent duplicate into an error.
- SQL failures other than missing rows and conflicts: an input-output error is a step that does not happen, and every error exit of a worker can be taken by an event of the protocol.
- Message texts of internal errors, timestamps, and 64-bit overflow of sequence numbers.
- UTF-8 decoding of network chunks: chunks are characters.
- The Postgres soul runtime: its numbering and turns are those of the standalone one.
- The second message cache and the request mapping of the Responses client: the chat client's cache is modelled in its place.
- Bash execution and its output capture, the watch hub, and adapters that the service does not wire.
