# Verified model of the sclaw agent runtime

This project models the concurrent protocols, the reasoning loop and the stateful
algorithms of the sclaw agent runtime in Dafny 4.11 and proves the guarantees that
they are built for. `dafny verify dfyconfig.toml` checks it.

The files, by subject:

- Concurrent protocols, for any number of threads and any interleaving:
  `LaneLock.dfy` (per-session mutex table), `HotReload.dfy` (agent caches against
  the atomically swapped registry), `RouterInbox.dfy` (inbox and worker pool),
  `Router.dfy` and `Validation.dfy` (what Submit checks before the send),
  `SubAgents.dfy` (sub-agent slots, status and locks), `Approvals.dfy` (approval
  requests and the gate in front of tools).
- The reasoning loop: `AgentTypes.dfy` (messages, guards, tool executor),
  `AgentLoop.dfy` (Run), `AgentStream.dfy` (RunStream, and that it refines Run).
- Transformations: `MergePatch.dfy` (the in-place YAML merge on mutable nodes),
  `MergeSemantics.dfy` (what it does to the entries), `MergeRfc.dfy` (RFC 7386, and
  merging again),
  `Utf8Split.dfy`, `SplitText.dfy`, `SplitMessage.dfy` (message chunking),
  `Reassembly.dfy`, `SseStream.dfy` (streamed tool calls), `Skills.dfy` (skill
  pruning), `History.dfy` (fitting a request into the context window).
- Accounting: `RateLimit.dfy`, `Health.dfy`, `Chain.dfy`, `FactStore.dfy`.
- Shared: `Options.dfy` (Option and Result), `Messages.dfy` (messages), `Sequences.dfy`
  (laws of sequences).

Concurrent code appears twice. A state machine interleaves the atomic steps of all
calls: its steps are the sections between lock operations, channel operations and
calls into unknown code. Beside it a class holds the fields that the source
updates, and its methods are the same sections in place, proved to take those
steps. `view` and `Repr` fields are ghost: they tie an object to the value that the
lemmas speak of. Sequential code is a class or a method with the loops of the
source, proved against a function; the results are lemmas about that function.

Parameters stand for what the code does not control: clock readings are integers;
providers, tools, estimators and summarizers are arbitrary functions; cancellation
and lost emissions are answers of a `World` or `Wire`.

Where code and documentation disagree the model follows the code:

- `mergeNodes` is documented as RFC 7386, but takes a patch that meets no mapping as
  it is, nulls included (`MergeRfc.MergeIsMergePatch` says exactly when the two agree).
- `RemoveSession` is documented to remove the buckets of one session, but also
  removes those of sessions whose ID continues with a colon
  (`RateLimit.RemoveReaches`, `RateLimit.RemovingAlsoRemoves`). The router builds such IDs from channel, chat and thread.
- `Stop` is documented to drain the workers, but without a completed Start accepted
  messages are left behind (`RouterInbox.DrainedExactlyWhen`).
- `runAgent` keeps a killed agent killed, but `Spawn` makes it a failed one when its loop
  factory fails, and nothing else does (`SubAgents.ChangesExactlyOnFailure`,
  `SubAgents.FactoryFailureOverwritesKilled`).
- `forceSplit` cuts a character when `maxLen` is smaller than the character
  (`Utf8Split.PartsValidExactlyWhen`).
- `SplitMessage` is documented to give messages within MaxLength, but a message of nothing
  but newlines comes back as it is (`SplitMessage.Split`, `SplitMessage.NothingToSendExactlyWhen`).
- The capped backoff can wrap around for a MaxBackoff of 2^62 ns or more
  (`Health.FormulaExactlyWhen`, `Health.SecondCooldownWraps`).

## Model

| member | source | states |
|---|---|---|
| LaneLocks.RefsCountUsers | internal/router/lane.go:17-24 | In every interleaving of Acquire, TryAcquire, Release and Cleanup, `refs` is the number of threads waiting on the lane, holding it or about to undo a failed try; a lane with refs > 0 is the one mapped at its key. |
| LaneLocks.MutualExclusion | internal/router/lane.go:33-67 | At most one thread per key is between a returned Acquire (or successful TryAcquire) and its Release, although Release may delete the lane before it unlocks it. |
| LaneLocks.ReleaseFindsItsLane | internal/router/lane.go:52-67 | Release looks the lane up by key and always finds the lane that its own Acquire locked, and the mutex it unlocks is locked by that thread. |
| LaneLocks.NoLeakedEntry | internal/router/lane.go:59-63 | No mapped lane is both stale and unreferenced. |
| LaneLocks.WaiterIsNeverStranded | internal/router/lane.go:46-47 | A blocked Acquire can lock now, or another thread that uses the same lane can take a step towards unlocking it: nobody waits on a dead lane. |
| LaneLocks.QuiescentCleanupCollects | internal/router/lane.go:95-112 | With no thread inside a bracket all lanes are free and unreferenced, and Cleanup keeps exactly the active keys. |
| LaneLocks.StepKeepsInv | internal/router/lane.go:35-112 | Every step of every thread keeps the invariant behind these results. |
| LaneLocks.SweepAllIsSweep | internal/router/lane.go:102-111 | Whichever order Cleanup ranges over the map in, the result is the same simultaneous sweep. |
| LaneLocks.LaneLock.EnterSection | internal/router/lane.go:36-44 | The locked section of Acquire and TryAcquire is the table step Enter: look up or create, count, clear the stale mark. |
| LaneLocks.LaneLock.ReleaseSection | internal/router/lane.go:53-64 | The locked section of Release is the table step Drop, and changes nothing for an unmapped key. |
| LaneLocks.LaneLock.UndoSection | internal/router/lane.go:84-89 | The undo path of TryAcquire is the same step Drop on the lane it had counted. |
| LaneLocks.LaneLock.CleanupSection | internal/router/lane.go:98-112 | Cleanup, as a loop over a shrinking map, is the simultaneous sweep. |
| HotReload.CoherentWhenSettled | internal/multiagent/factory.go:557-611 | With any number of concurrent Reloads and resolvers, once every Reload that swapped has finished its pass, each cached soul loader and each non-nil cached history or fact store was opened with what the current registry gives that agent. |
| HotReload.StaleEntryIsPending | internal/multiagent/factory.go:557-603 | At any moment a cached entry that disagrees with the current registry is one that some unfinished Reload is about to drop. |
| HotReload.StaleBetweenSwapAndPass | internal/multiagent/factory.go:558-571 | The proviso is needed: a concrete run in which a loader of the replaced directory is still cached between swap and pass. |
| HotReload.StepKeepsInv | internal/multiagent/factory.go:269-372 | Every step of Reload, ResolveSoul, ResolveHistory and ResolveFactStore keeps the invariant that traces each entry to the registry it was opened from. |
| HotReload.Factory.InvalidatePass | internal/multiagent/factory.go:570-603 | The pass drops exactly the entries whose agent was deleted or reconfigured, and keeps all others unchanged. |
| HotReload.Factory.InvalidateSouls | internal/multiagent/factory.go:581-587 | The loop over the soul cache keeps exactly the loaders whose data dir is unchanged. |
| HotReload.Factory.InvalidateStores | internal/multiagent/factory.go:591-603 | The loop over the history stores also drops the matching fact stores, and no others. |
| HotReload.Factory.ResolveSoul | internal/multiagent/factory.go:346-372 | A cached loader is served; otherwise one is opened from the current registry, or the default prompt is used and nothing is cached. |
| HotReload.Factory.ResolveHistory | internal/multiagent/factory.go:269-320 | A cached entry, nil included, is served; otherwise both stores are opened and cached, or nil is cached. |
| HotReload.Factory.ResolveFactStore | internal/multiagent/factory.go:325-341 | The fact store comes from the cache or by way of ResolveHistory; an agent with a cached history entry is not reopened. |
| RouterInbox.NoSendOnClosed | internal/router/router.go:172-233 | A Submit about to send never faces a closed inbox, and the queue never exceeds its capacity. |
| RouterInbox.CloseIsExclusive | internal/router/router.go:240-244 | The inbox is closed at most once, by Stop alone under the write lock. |
| RouterInbox.FirstInFirstOut | internal/router/pool.go:35-45 | At every moment the enqueued messages are those handed to the handler, in order, followed by those queued; no two workers handle the same message. |
| RouterInbox.NothingLostAtStop | internal/router/router.go:235-254 | If a Start completed before Stop began, then when Stop returns every enqueued message has been handed to the handler exactly once and every handler call has returned. |
| RouterInbox.DrainedExactlyWhen | internal/router/router.go:151-167 | In general nothing is lost when the wait of Stop ends if and only if nothing was enqueued or a worker had been launched. |
| RouterInbox.StopWithoutStartLoses | internal/router/router.go:235-254 | A concrete run without Start in which an accepted message is never handled. |
| RouterInbox.StepKeepsInv | internal/router/router.go:151-254 | Every step of Start, Submit, the workers and Stop keeps the invariant. |
| Routers.Router.Submit | internal/router/router.go:172-233 | The checks in order: stopped; an answer to an open approval, which never enters the queue; size and nesting of the raw message; the rate limit of its session; room in the queue. Each outcome has its own result and exactly then; the rate limiter counts a message exactly when it is asked, also when the queue then turns out to be full. |
| Validation.VerdictIsFirst | internal/security/validation.go:40-67 | A raw message is accepted if and only if every token decodes and the nesting never exceeds the limit; otherwise the first token that breaks either rule decides the error. |
| Validation.ValidateJSONDepth | internal/security/validation.go:40-67 | The loop, which looks at the depth only at opening brackets, gives that verdict. |
| Validation.ValidateMessageSize | internal/security/validation.go:26-34 | Too large is more than the limit, or than 1 MiB when there is none. |
| Routers.Router.CloseInbox | internal/router/router.go:237-249 | Stop takes effect once; queued messages stay queued. |
| Routers.Router.WorkerLoop | internal/router/pool.go:38-43 | On a closed inbox a worker hands over every queued message in order and returns with the inbox empty. |
| SubAgents.SlotAccounting | internal/subagent/manager.go:92-180 | In every run: Running agents <= active = slots not given back <= MaxConcurrent. |
| SubAgents.SessionIsolation | internal/subagent/manager.go:105-116 | All agents of one non-empty parent with non-empty session IDs have one session ID. |
| SubAgents.FinishedIsFinal | internal/subagent/manager.go:153-223 | The status of a finished agent at any later time: Failed if the factory-failure path of Spawn has written it since, and otherwise what it was. So no finished agent runs again, and runAgent never overwrites Killed. |
| SubAgents.ChangesExactlyOnFailure | internal/subagent/manager.go:153-166 | The status of a finished agent changes if and only if the factory-failure path of Spawn runs; then it was Killed and becomes Failed. |
| SubAgents.BuiltIsFinal | internal/subagent/manager.go:153-223 | Once the loop of an agent is built, its final status is final. |
| SubAgents.FactoryFailureOverwritesKilled | internal/subagent/manager.go:153-166 | The exception is real: a run in which a killed agent turns Failed on the factory-failure path of Spawn. |
| SubAgents.LockOrder | internal/subagent/manager.go:92-323 | In every reachable state, whoever holds the lock of an agent waits for no lock. |
| SubAgents.NoWaitCycle | internal/subagent/manager.go:92-323 | In every reachable state the wait-for relation has no cycle: a chain of parties each waiting for the next has at most three, all different. |
| SubAgents.NoDeadlock | internal/subagent/manager.go:92-323 | Whoever waits for a lock in a reachable state can have it now, or the holder of that very lock can take a step towards freeing it, or the holder of the manager lock waits for the lock of one agent, whose holder can free it with one step. |
| SubAgents.StepKeepsInv | internal/subagent/manager.go:92-323 | Every step of Spawn, runAgent, Send, History, List, Kill and Shutdown keeps the invariant. |
| SubAgents.Manager.SessionClash | internal/subagent/manager.go:109-116 | The scan over all agents finds a clash if and only if there is one. |
| SubAgents.Manager.SpawnSection | internal/subagent/manager.go:93-151 | Refusals in the order of the code; otherwise one Running agent is added and one slot is taken. |
| SubAgents.Manager.EndSection | internal/subagent/manager.go:188-222 | The final status and the capped history of an agent; a killed agent is left alone. |
| SubAgents.Manager.FailSection | internal/subagent/manager.go:156-163 | The factory-failure path marks the agent Failed and gives the slot back. |
| SubAgents.Manager.Kill | internal/subagent/manager.go:282-305 | Kill succeeds exactly on a running agent and cancels it. |
| SubAgents.Manager.SendMessage | internal/subagent/manager.go:226-252 | Send appends to the history of a running agent and of no other. |
| SubAgents.Manager.ShutdownAll | internal/subagent/manager.go:308-323 | Shutdown kills every running agent and changes no other status. |
| Approvals.ApprovalIsFresh | internal/tool/state.go:47-122 | Whatever Begin returns without error was put on its own channel by its own requester or by a Respond that saw this very request pending; a Respond that races with a later Begin never feeds the later one. |
| Approvals.OneRequestAtATime | internal/tool/state.go:53-69 | At most one Begin is pending, and it owns the channel that Respond would use. |
| Approvals.PrivateApprovalIsRequesters | internal/tool/registry.go:229-239 | A PendingApproval that nobody else can respond to returns only the answer of its own requester. |
| Approvals.StepKeepsInv | internal/tool/state.go:47-141 | Every step of Begin, its goroutine and Respond keeps the invariant. |
| Approvals.PendingApproval.Enter | internal/tool/state.go:53-63 | Begin is refused unless idle, and otherwise gets a channel nobody has seen. |
| Approvals.PendingApproval.Respond | internal/tool/state.go:126-141 | Without interference Respond delivers exactly when a request is pending and its buffer is free. |
| Approvals.Registry.Execute | internal/tool/registry.go:161-284 | The tool body runs exactly when the tool exists, the rate admits it and its level is Allow, or Ask with an approval; each refusal has its own error. |
| Approvals.ExecuteWithApproval | internal/tool/registry.go:224-260 | At level Ask the body runs only after the requester approved that very request, however the goroutines of Begin interleave. |
| AgentLoop.RunIsLawful | internal/agent/loop.go:126-219 | For any provider and any tools: the request of iteration i is the initial messages followed by the rounds of the first i answers, each the answer itself and one message per tool result in order; the tools that run are the calls of the answers, and their records are what the tools returned; no tool runs when the usage of the answers so far has spent the budget; no signature executes LoopThreshold times; reported usage is the sum of all answers. |
| AgentLoop.Run | internal/agent/loop.go:126-219 | Run, as a loop over mutable tracker and detector, computes the state machine that the laws are proved of. |
| AgentLoop.RoundExtends | internal/agent/loop.go:201-210 | One iteration appends exactly one well-formed round to the conversation. |
| AgentLoop.IterationKeepsLaws | internal/agent/loop.go:138-210 | Every iteration keeps the laws, wherever it ends the run. |
| AgentStream.StreamRefinesRun | internal/agent/loop.go:228-364 | If every stream folds to the completion the provider would have returned and the context is never cancelled, RunStream goes through the same states as Run, announces exactly the tool results of the response, and closes with exactly one event: Done with the response of Run, or Error with its error. |
| AgentStream.LoopsAgree | internal/agent/loop.go:126-364 | The same from any state in which the two loops have told the same story so far. |
| AgentStream.StreamIsLawful | internal/agent/loop.go:237-361 | The laws of RunIsLawful hold of every streaming run, also when the context ends in the middle or nobody listens. |
| AgentStream.RunStream | internal/agent/loop.go:228-364 | RunStream, as a loop that emits on a channel, computes the streaming state machine. |
| AgentStream.IterateStream | internal/agent/loop.go:243-358 | One pass through its loop body, statement by statement. |
| AgentStream.ReadStream | internal/agent/loop.go:263-295 | The chunk loop accumulates text, calls and the last usage, and stops at an error chunk or a lost emission. |
| AgentStream.ConsumeFolds | internal/agent/loop.go:269-286 | Reading a stream to its end leaves the concatenated text, the concatenated calls and the last usage. |
| AgentStream.IterationsAgree | internal/agent/loop.go:138-358 | One iteration of the two loops tells the same story. |
| AgentStream.EventChannel.EmitEach | internal/agent/loop.go:99-114 | A sequence of emissions stops at the first that finds no receiver. |
| AgentTypes.HitMeansThreshold | internal/agent/guards.go:40-44 | The detector stops a response if and only if that response would bring some signature to the threshold. |
| AgentTypes.LoopDetector.RecordCalls | internal/agent/loop.go:190-199 | The check over all calls of one response, with the counts it leaves behind. |
| AgentTypes.Execute | internal/agent/executor.go:70-84 | Whatever order the goroutines finish in, each result stands at the position of its call. |
| AgentTypes.ExecuteAll | internal/agent/executor.go:86-125 | One record per call, in order, with its ID, name and arguments, also when a tool fails or panics. |
| AgentTypes.ToolMessages | internal/agent/loop.go:75-85 | One tool message per record, in order, with its ID. |
| MergePatch.MergeNodes | internal/tool/configtool/merge.go:16-40 | On trees of mutable nodes without sharing, mergeNodes builds the merged tree in place from nodes of the two trees, again without sharing; missing arguments and document wrappers included. |
| MergePatch.MergeMappings | internal/tool/configtool/merge.go:43-67 | The loop over the patch deletes, replaces and appends in the content of the base; the content of the patch mapping itself does not change. |
| MergePatch.FindMappingKey | internal/tool/configtool/merge.go:71-78 | The first entry with the key, or -1. |
| MergeSemantics.MergeInOrder | internal/tool/configtool/merge.go:43-67 | The one-by-one merge equals the simultaneous one: survivors in base order with their own key nodes (untouched, merged, or replaced), then new keys in patch order; null deletes. |
| MergeSemantics.MergeFromIsUpsertAll | internal/tool/configtool/merge.go:43-67 | The loop over the patch applies its entries one after the other to the list of entries of the base, whatever the keys, repeated ones included. |
| MergeSemantics.AllAtOnce | internal/tool/configtool/merge.go:44-66 | Applying the entries of a patch one after the other is applying them at once. |
| MergeSemantics.EntryIsUpsert | internal/tool/configtool/merge.go:48-65 | One pass of the loop over the flat content is one update of the list of entries. |
| MergeRfc.MergeKeepsWellFormed | internal/tool/configtool/merge.go:43-67 | Keys stay unique, at every depth. |
| MergeRfc.MergeSays | internal/tool/configtool/merge.go:16-67 | What the merged tree says is a function of what the two trees say. |
| MergeRfc.MergeIsMergePatch | internal/tool/configtool/merge.go:10-15 | The result is the merge patch of section 2 of RFC 7386 if and only if no null sits inside a patch mapping that lands where the base has no mapping. |
| MergeRfc.MergeAgainChangesNothing | internal/tool/configtool/merge.go:16-67 | Merging a patch that says the same again leaves the merged tree as it is, values and order of entries at every depth, if and only if the same condition held. |
| MergeRfc.NothingNewMovesNothing | internal/tool/configtool/merge.go:43-67 | A merge that leaves what a tree says leaves the order of its entries too, at every depth. |
| MergeRfc.NullInNewMapping | internal/tool/configtool/merge.go:61-64 | A concrete patch for which code and RFC differ. |
| SplitMessage.Split | internal/channel/chunking.go:26-82 | On the splitting path: the blocks of all messages are the input blocks with each text replaced by its pieces; every message has blocks, the original addressing and at most MaxLength bytes of text; a new message is begun only when the next piece does not fit. Messages that fit, and messages of nothing but newlines, come back unchanged; all messages fit if and only if the input fits or is not of that kind. |
| SplitMessage.InPiecesKeepsInk | internal/channel/chunking.go:50-75 | No character of any text is lost or invented, newlines apart. |
| SplitMessage.NothingToSendExactlyWhen | internal/channel/chunking.go:50-80 | No piece comes out of a message if and only if all its blocks are text of nothing but newlines. |
| SplitMessage.NewlinesStayTooLong | internal/channel/chunking.go:77-80 | For every limit there is such a message over it: one newline more than fits. |
| SplitText.NoPieceExactlyWhen | internal/channel/chunking.go:96-136 | A text yields no piece if and only if it is nothing but newlines. |
| SplitMessage.TextOf | pkg/message/block.go:84-95 | The text of a message: its non-empty text blocks joined by newlines. |
| SplitText.PiecesFit | internal/channel/chunking.go:96-136 | Every piece is non-empty and at most MaxLength bytes. |
| SplitText.PiecesKeepInk | internal/channel/chunking.go:96-136 | Deleting newlines from the pieces gives the text with newlines deleted. |
| SplitText.FencedBlocksStayWhole | internal/channel/chunking.go:115-127 | With PreserveBlocks, every fenced block that the scan meets and that fits stands whole and contiguous inside one piece. |
| SplitText.PiecesAreValid | internal/channel/chunking.go:96-136 | For valid UTF-8 and MaxLength >= 4 every piece is valid UTF-8. |
| SplitText.SplitIntoPieces | internal/channel/chunking.go:96-136 | The scan over the lines with its builder computes the pieces. |
| SplitText.Splitter.AppendLine | internal/channel/chunking.go:169-195 | appendLine on the shared builder, length and chunk list. |
| SplitText.Splitter.AppendPiece | internal/channel/chunking.go:138-167 | appendPiece does to them what appendLine does. |
| SplitText.FindFenceEnd | internal/channel/chunking.go:201-208 | The nearest fence line after the start, if any. |
| Utf8Split.ForceSplit | internal/channel/chunking.go:212-229 | The loop that walks back from each cut terminates and computes the parts. |
| Utf8Split.ForcedIsTheLine | internal/channel/chunking.go:210-229 | The parts concatenate to the line. |
| Utf8Split.ForcedSizes | internal/channel/chunking.go:210-229 | Every part has 1 to maxLen bytes. |
| Utf8Split.PartsValidExactlyWhen | internal/channel/chunking.go:211-221 | For valid UTF-8 (RFC 3629, section 4) every part is valid if and only if no character is longer than maxLen. |
| Utf8Split.FourBytesSuffice | internal/channel/chunking.go:211-221 | With maxLen >= 4 every part of valid UTF-8 is valid UTF-8. |
| Utf8Split.ThreeBytesDoNot | internal/channel/chunking.go:219-221 | With maxLen 3 a four-byte character is cut. |
| RateLimit.SlidingWindow | internal/security/ratelimit.go:120-168 | For any calls on a clock that never goes back: since the session was last removed, every closed interval as long as the window holds at most `limit` admitted events of a session and kind, and the buffer is exactly the admitted events not older than the last cutoff. |
| RateLimit.OthersLeaveAlone | internal/security/ratelimit.go:92-95 | A call about another session or kind, or a removal that does not reach this session, leaves the bucket alone. |
| RateLimit.RemoveReaches | internal/security/ratelimit.go:170-181 | The step of RemoveSession removes the buckets of the session and also those of every session whose ID continues with a colon after this one; it removes no others and changes none. |
| RateLimit.RemovingAlsoRemoves | internal/security/ratelimit.go:170-181 | A concrete run in which removing session a removes the bucket of session a:b. |
| RateLimit.KeyInjective | internal/security/ratelimit.go:92-95 | Keys of kinds without a colon name one session and one kind. |
| RateLimit.EvictedIsSince | internal/security/ratelimit.go:191-203 | Dropping from the front until the first recent event is dropping exactly the old ones. |
| RateLimit.RateLimiter.Allow | internal/security/ratelimit.go:120-138 | Allow decides and updates as specified and touches one bucket. |
| RateLimit.RateLimiter.AllowN | internal/security/ratelimit.go:145-168 | So does AllowN; n <= 0 and unknown kinds are allowed without a trace. |
| RateLimit.RateLimiter.RemoveSession | internal/security/ratelimit.go:171-181 | The loop over the map removes exactly the keys with the prefix. |
| RateLimit.RateLimiter.GetOrCreateBucket | internal/security/ratelimit.go:99-115 | The bucket of a session and kind, created from the template of the kind when missing. |
| RateLimit.Bucket.Evict | internal/security/ratelimit.go:191-203 | The in-place eviction loop. |
| Health.StreakDecides | internal/provider/health.go:121-163 | After any run, state, failure count and backoff depend on the failure streak alone, and a cooldown ends one backoff after the last failure. |
| Health.FormulaExactlyWhen | internal/provider/health.go:143-156 | The backoff is min(MaxBackoff, InitialBackoff * 2^(f-1)) for every 0 < f < MaxFailures if and only if no backoff of 2^62 ns or more is ever doubled (64-bit wrap-around). |
| Health.SecondCooldownWraps | internal/provider/health.go:143-156 | With an InitialBackoff of 2^62 ns the second cooldown is negative, so the provider is available at once. |
| Health.FormulaHolds | internal/provider/health.go:135-163 | For MaxBackoff < 2^62 a streak below MaxFailures is a cooldown with the backoff of the formula. |
| Health.HealthTracker.RecordFailure | internal/provider/health.go:137-163 | The mutable tracker takes exactly this step. |
| Health.HealthTracker.ShouldHealthCheck | internal/provider/health.go:167-179 | A probe is due exactly for what is dead or has finished cooling down. |
| Health.HealthTracker.IsAvailable | internal/provider/health.go:107-119 | Healthy is available, dead is not, a cooldown is once its time has come. |
| Chain.CompleteIsLawful | internal/provider/chain.go:202-258 | Whatever the providers answer: exactly the available candidates up to the stop are called, in order and at most once; the walk stops at the first success or non-retryable error; each call settles its own tracker and no other; key sets turn once per rate limit. |
| Chain.Chain.Complete | internal/provider/chain.go:202-258 | Complete on mutable trackers and key sets computes the verdict and state of that walk over the candidates. |
| Chain.NewChain | internal/provider/chain.go:117-171 | Fails exactly for no entries and for an entry without provider, the first of which it names; otherwise every entry has a fresh healthy tracker of its own, which is the state that Complete starts from. |
| Chain.Candidates | internal/provider/chain.go:372-387 | The candidates are exactly the direct matches and the covering fallbacks; direct matches come first, and configured order decides otherwise. |
| Chain.CandidatesNeverRepeat | internal/provider/chain.go:372-387 | That order admits no entry twice. |
| Chain.IsFallbackFor | internal/provider/chain.go:390-400 | A fallback covers a role if its list is empty or names it. |
| Chain.TurnedGoesRound | internal/provider/chain.go:63-71 | n rotations advance by n around the keys, and as many as there are keys return to the same key. |
| Chain.WalkTurnsKeys | internal/provider/chain.go:230-237 | Keys turn once per rate limit of an entry that uses them, and for nothing else. |
| Chain.AuthProfile.Rotate | internal/provider/chain.go:63-71 | One rotation; it reports whether there was another key. |
| Reassembly.InterleavingDoesNotMatter | modules/provider/openai_compatible/stream.go:45-61 | Two delta streams that agree index by index accumulate the same calls. |
| Reassembly.FragmentsReassemble | modules/provider/openai_compatible/stream.go:45-61 | Cut any calls into fragments and interleave them in any way that keeps each order: accumulating gives the calls back. |
| Reassembly.CallsReassemble | modules/provider/openai_compatible/stream.go:63-82 | For calls numbered from 0 on the result is the list of calls. |
| Reassembly.ToolAccumulator.AddDelta | modules/provider/openai_compatible/stream.go:46-61 | add fills in ID and name when present and appends the arguments. |
| Reassembly.ToolAccumulator.Result | modules/provider/openai_compatible/stream.go:64-82 | The calls with non-negative indexes in index order. |
| SseStream.StreamDelivers | modules/provider/openai_compatible/stream.go:87-212 | A stream read to its end folds, in the reasoning loop, to the completion its fragments were cut from; a fault becomes its error. |
| SseStream.WireRefinesRun | modules/provider/openai_compatible/stream.go:87-212 | From the wire to the outcome: when every connection spells out the completion the provider would have returned, with its calls cut and interleaved, the streaming loop ends as the synchronous loop does. |
| SseStream.ParseSSEStream | modules/provider/openai_compatible/stream.go:87-212 | The scan loop emits exactly the chunks of the specification, the calls once at the end, at [DONE] or at the end of the stream. |
| SseStream.TailFaults | modules/provider/openai_compatible/stream.go:119-142 | The first error of the chunks is the first undecodable line before the end marker, or else the scanner error. |
| Skills.PruneSkillsToFit | internal/workspace/format.go:61-84 | For a positive budget the first fitting list of the pruning order, or its last when none fits; otherwise the always skills. |
| Skills.PruneByTrigger | internal/workspace/format.go:88-98 | As few skills of the trigger mode as will do, from the end. |
| Skills.PrunedKeeps | internal/workspace/format.go:54-60 | Every list of the order is an order-preserving sublist, keeps all skills that are neither auto nor manual, and drops a manual skill only when no auto skill is left. |
| Skills.LastPruned | internal/workspace/format.go:54-60 | When nothing fits, what is left has neither auto nor manual skills and all the always skills. |
| Skills.FilterAlways | internal/workspace/format.go:101-109 | Exactly the always skills, in order. |
| History.TrimHistory | internal/context/assembler.go:179-215 | The summary (if any) and the rest from the first start that fits, or from the last message when nothing fits. |
| History.TrimIsLongest | internal/context/assembler.go:176-215 | The trimmed history fits if and only if the last message beside the summary fits; when it fits, exactly the starts from its own on fit, so it is the longest. |
| History.WindowHolds | internal/context/assembler.go:107-119 | Used() <= WindowSize if and only if the fixed costs leave room for the least that trimming can leave. |
| History.Assemble | internal/context/assembler.go:76-146 | The parts of the budget, the kept facts, the prompt, the trimmed history and the window condition of every assembly. |
| History.LimitMemoryFactsByTokens | internal/context/assembler.go:148-174 | The longest prefix of facts all of whose prefixes fit, with its token count. |
| History.EstimateMessages | internal/context/budget.go:71-101 | The nested loops compute the sum over messages, parts (765 per image), names and tool calls. |
| History.ShorterCostsLess | internal/context/assembler.go:198-205 | A shorter suffix never costs more. |
| History.Compact | internal/context/compactor.go:51-105 | A compacted history is the most recent messages after at most one system message. |
| FactStore.StoreRefinesMap | internal/memory/store_mem.go:33-107 | In every run of Index and Delete the store stands for the map from IDs to facts, and its index maps exactly the stored IDs to their positions one to one. |
| FactStore.RemoveKeepsIndexed | internal/memory/store_mem.go:97-104 | Swap-delete removes only the named fact. |
| FactStore.PutKeepsIndexed | internal/memory/store_mem.go:37-44 | Index replaces in place or appends. |
| FactStore.MatchesAreExact | internal/memory/store_mem.go:57-67 | The matches in the slice are exactly the matching facts of the map, each once. |
| FactStore.InMemoryStore.Search | internal/memory/store_mem.go:49-70 | Only matching facts, min(topK, number of matches) of them, none for topK <= 0. |
| FactStore.InMemoryStore.SearchByMetadata | internal/memory/store_mem.go:73-85 | Exactly the facts whose metadata gives the value; a missing key of a fact with metadata counts as the empty value. |
| FactStore.InMemoryStore.DeleteFact | internal/memory/store_mem.go:88-107 | Deletes exactly the named fact, or reports that it is missing. |
| FactStore.InMemoryStore.IndexFact | internal/memory/store_mem.go:33-46 | Stores or updates exactly the named fact. |

## Left out

- HTTP, WebSocket, Telegram, SQLite, YAML and JSON decoding, file and process I/O, regular expressions, hashing and signatures: thin wrappers over libraries.
- CLI, gateway handlers, OpenAPI, metrics, tracing, logging, audit writing and most config defaulting: no hard property.
- Path, URL, allow-list and redaction filters: short predicates.
- Routers.Router.Submit: whether a message reads as an answer to an approval, whether that approval was open, and the tokens of its JSON are parameters.
- The MCP tool cache: its data dir comes from the caller, so coherence does not carry over to it.
- Cached nil history stores: one kept for an agent that was unknown when it was asked for stays nil after the agent is added; coherence is about non-nil entries.
- Factory.Close empties the store caches in the state machine; the order of closing databases is not modelled.
- Mutexes are steps that are enabled when the mutex is free: fairness and spurious wake-ups are not modelled, and TryLock may fail at any time.
- Sub-agent IDs: the random generator is taken never to repeat an ID.
- Send to a sub-agent only appends to its history, as in the code; Snapshot copies are not modelled.
- That Respond returning true means the answer was consumed: it is false of the code, and no claim is made.
- Policy validation and the trimming of names in policy lists: resolution works on normalised names.
- Tool records carry no durations; JSON normalisation of arguments is an arbitrary canonical form.
- Real time and deadlines are nondeterministic cancel steps or answers of the context.
- YAML comments, styles and anchors: a node is its kind, tag, value and content; aliases are not followed, as in the code. The content slice of a node is a sequence-valued field, so spare capacity of slices is not modelled.
- MergePatch.MergeNodes: asks that base and patch share no node, which holds for two separately decoded documents; the one caller (internal/tool/configtool/patch.go:99) decodes the two apart.
- MergePatch.MergeMappings: asks the same of the two mappings, for the same reason.
- MergeSemantics.MergeInOrder: assumes unique keys in both mappings, as do the laws of the merge. Decoding into a yaml.Node does not reject repeated keys; what the code does with them is MergeSemantics.MergeFromIsUpsertAll. The laws also assume no document node below the top and null tags on scalars only.
- Floating point in CharEstimator: estimates are an arbitrary non-negative function.
- The wording of FormatSkillsForPrompt: the cost of a skill list is an arbitrary function of the list.
- The JSON size of tool definitions enters History.Assemble as a number.
- EmergencyCompact, GetProvider, HealthReport, the health-check goroutine and Stream of the chain: Stream walks the candidates as Complete does, and only defers the verdict to the end of the stream. During one call of Complete no other call changes the trackers.
- Finish reasons decide whether a chunk is passed on but are not carried in it; of a decoded chunk only the first choice is read, as in the code.
- A negative RetainRecent, which the source would turn into a run-time panic: the retained count is a natural number.
- Arithmetic overflow other than in the doubling of backoffs.
- ToLower is an arbitrary function in FactStore.InMemoryStore.Search; reads and writes of the store are taken one at a time, as its lock makes them.
- Backing arrays, clearing of evicted entries and other memory effects of slices.
