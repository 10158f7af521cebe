# AutoGateway: verified models

Dafny models of the parts of AutoGateway, an LLM gateway, that carry its hard guarantees, with proofs of
those guarantees. `dafny verify dfyconfig.toml` checks all of it. Imperative code of the gateway is modelled
as classes and loops that are proved equal to a specification function; the theorems are about those
functions, over every input, every stream or every run of operations.

- **Protocol translation** (`StreamTypes`, `ChatToAnthropic`, `AnthropicToChat`, `BlockLifecycle`, `StreamEcho`,
  `AnswerLink`, `StreamRoundTrip`, `StreamUsage`, `ClientViews`, `StreamDriver`): the two stream state machines, the life
  cycle of the blocks they emit, what a client of either protocol assembles from them, what survives a translation there
  and back, and the loop that drives them.
- **History repair** (`Normalize`, `HistoryRepair`, `Reassembly`, `RepairTwice`, `ChatRequest`): message histories are
  repaired so that every tool call is answered at the head of the next user message.
- **Key pool** (`RateLedger`, `KeyPool`, `KeySelection`, `KeyQueue`, `KeyPoolSteps`, `KeyPoolRuns`, `KeySync`): database
  rows, cached hashes and the rotating list of active keys, with every operation as one atomic step.
- **Weighted rotation** (`Sums`, `Sorting`, `UpstreamRotation`, `CandidateRotation`): smooth weighted round robin with
  fixed and with sampled weights.
- **Field merge** (`LwwMerge`, `GroupMerge`, `GroupHistory`): last-write-wins merging of versioned JSON columns, and what
  peers that exchange their groups end up with.
- **Failover** (`Failover`, `FailoverRuns`, `SubGroupSelection`, `SelectionFairness`): the recursion over retries and
  sub-groups, with the upstream as an oracle, and the weighted rotation that finds a sub-group to go to.
- **Status matcher** (`StatusMatcher`, `StatusGrammar`): parsing, coalescing and binary search of status-code ranges, and
  the texts that spell them.
- **Body rewriting** (`JsonPath`, `JsonTree`): reading, setting, deleting and moving at a path; `JsonTree` updates maps and
  slices in place on the heap and is proved against the value functions of `JsonPath`.

`Wrappers` holds the option type, `Strings` the operations on text taken from the standard library, `Selections` what it
means that one sequence is picked from another in order.

## Where the code keeps less than it promises

Each entry names an input on which the code falls short, and a theorem that says exactly when it does not.

- `internal/apicompat/stream.go:169` shadows `blockIdx`, so a frame that announces a tool call and carries arguments
  sends them to block 0. After text they are lost (`StreamRoundTrip.ShadowedArgumentsAreLost`). Argument deltas follow
  the block life cycle exactly for streams in order (`BlockLifecycle.EveryStreamIsOneMessage`), and arguments survive
  the round trip exactly when no such frame comes behind other content (`StreamRoundTrip.RoundTrip`).
- The driver keeps feeding chunks that arrive after the end marker to a translator that has ended its message
  (`StreamDriver.LateTextSpoils`, and exactly when: `StreamDriver.DriverWellFormed`).
- In the other direction the end marker is sent even after nothing (`internal/proxy/stream_translate.go:165`), so the
  attempt never counts as failed (`StreamDriver.TranslateAnthropicToChat`) and the failover promised for a stream
  without events (169) never happens: an upstream that sends no event at all leaves the client with the marker alone,
  and `StreamDriver.NothingButTheEndIff` says exactly which upstreams do.
- The largest cached and the largest uncached share of the prompt are kept apart, so two chunks that report usage can
  make tokens count twice (`StreamUsage.PromptCountedTwice`, `StreamUsage.PromptCountedOnceIff`).
- `LoadKeysFromDB` also runs on a live store, after a backup import (`internal/container/container.go:249`), and there it
  leaves an old list in place when no row is active, as when the import has disabled the only active key
  (`KeyPoolRuns.LeftoverStaysListed`, `internal/backup/importer.go:345`), and keeps the cached hash of a row that was
  soft-deleted without the cache (`KeyPoolRuns.StaleHashStays`, `internal/backup/importer.go:199`);
  `KeyPoolRuns.LoadMirrorsIff` says exactly when a load makes the pool consistent.
- Enabling a key whose credential is not cached lists a key that selection evicts
  (`KeyPoolRuns.EnabledThenEvicted`, `KeyPoolRuns.EnableServesIff`). A late success re-activates a disabled key once
  selection has evicted it (`KeyPoolRuns.EvictedThenReactivated`, `KeyPoolRuns.SuccessReactivatesIff`). A sync keeps
  the cached credential and failure count of a servable key, also when its row has changed
  (`KeySync.StaleCountStays`, `KeySync.SyncMirrorsIff`).
- Peers that merge each other's groups differ when two values render alike (`GroupMerge.RenderingClash`), and keep
  different columns without versions at equal times (`GroupMerge.EqualTimesApart`); `GroupMerge.SymmetricIff` says
  exactly when they agree. The record-level fallback makes the outcome depend on who met whom first
  (`GroupMerge.FallbackSplits`); `LwwMerge.ConvergesIff` and `GroupHistory.ConvergesIff` say exactly for which origins
  the outcome does not depend on the order.
- When all sub-groups that could serve are cooling down, the selector promises the one that recovers first
  (`internal/services/subgroup_manager.go:388`). With different priorities it returns none
  (`SubGroupSelection.TiersLoseFallback`): no tier is open then, and the check of the tier (432) skips every sub-group
  before its cooldown is looked at. `SubGroupSelection.ReturnsIff` and `SubGroupSelection.DegradesIff` say exactly when
  a sub-group is returned. Priority -1, which
  `internal/services/aggregate_group_service.go:114-121` does not refuse, also marks that no tier is open, and a
  sub-group with it is overlooked for a less preferred one
  (`SubGroupSelection.MarkOverlooked`, and exactly when: `SubGroupSelection.TierIs`).
- `internal/proxy/server.go` records the success of a stream when its headers arrive (493) and the failure when it
  breaks (534), so the circuit breaker can hear twice of one request (`Failover.BrokenStreamRecordsTwice`,
  `Failover.BreakerRecordsOnceIff`).
- `move` of an object field onto itself deletes it (`JsonPath.MoveOntoItselfLoses`), and `JsonPath.MoveHoldsIff` says
  exactly when a move leaves the value at the target and nothing at the source. A deleted array element leaves a null
  at the end of the array (`JsonPath.DeleteRemovesIff`).

## What the functions do beyond what the program passes them

- `normalizeAnthropicMessages` pairs calls and answers in any history. A result in an assistant message, or a call in
  another, would pass through (`HistoryRepair.AcceptableIff`) and could make a second repair change the history
  (`RepairTwice.IdempotentIff`, `RepairTwice.Unsettled`); but its only caller passes histories made from Chat requests,
  which hold neither (`ChatRequest.TrafficPlaced`, `ChatRequest.EveryRequestIsPaired`).
- `AddKeys` lists every added key, whatever its status (`KeyPoolRuns.AddKeepsIff`); its caller adds active ones only.
- A sync cannot unlist a key whose row is gone altogether (`KeySync.VanishedStaysListed`, `KeySync.SyncRepairs`); the
  program itself only marks rows as deleted.
- Merging is associative for versions that are not negative (`LwwMerge.Associative`), and there are states with negative
  ones for which it is not (`LwwMerge.NegativeVersionsSplit`).

## Model

| member | source | states |
|---|---|---|
| `ChatToAnthropic.ChatToAnthropicStream.Process` | internal/apicompat/stream.go:93-187 | One chunk moves the translator's fields and emits events exactly as the step function that the stream theorems are about; a nil chunk changes nothing. |
| `ChatToAnthropic.ChatToAnthropicStream.ProcessToolCall` | internal/apicompat/stream.go:161-179 | An unknown tool index closes the open block and opens one of its own; arguments go to the known block, or to block 0 on the announcing frame. |
| `ChatToAnthropic.ChatToAnthropicStream.Finalize` | internal/apicompat/stream.go:193-221 | Closes the open block, reports stop reason and usage and ends the message; called again it emits nothing. |
| `BlockLifecycle.RunWellFormed` | internal/apicompat/stream.go:93-282 | Every finalized run is empty, exactly when no chunk arrived, or one message: start, blocks 0, 1, 2, ... each closed before the next opens, every text and thinking delta addressed to the open block of its kind, one message_delta, one message_stop. With tool deltas included this holds exactly when the frames come in order. |
| `BlockLifecycle.EveryStreamIsOneMessage` | internal/apicompat/stream.go:93-221 | The same for the two readings of the protocol at once: without the addresses of tool deltas always, with them if and only if the frames are in order. |
| `BlockLifecycle.ChunksScan` | internal/apicompat/stream.go:93-187 | After any prefix of a stream the events so far leave the protocol automaton in the phase the translator's fields describe, and each tool index owns a block of its own. |
| `AnthropicToChat.AnthropicToChatStream.Process` | internal/apicompat/stream.go:316-405 | One event moves the reverse translator and emits chunks exactly as its step function; an absent event changes nothing. |
| `AnthropicToChat.AnthropicToChatStream.Finalize` | internal/apicompat/stream.go:408-417 | Ends a stream that was cut short once, and not at all when nothing had started. |
| `AnthropicToChat.RoleOnce` | internal/apicompat/stream.go:441-453 | In every run each chunk has one choice, and the first chunk and no other announces the role. |
| `StreamRoundTrip.RoundTrip` | internal/apicompat/stream.go:93-453 | Chat to Anthropic and back keeps the text, the reasoning, and the id and name of every tool call, renumbers the calls from 0 by first appearance, and keeps all arguments if and only if no call is announced with arguments behind other content; the finish reason is tool_calls with tools, else length and tool_calls are kept and anything else is stop. |
| `StreamRoundTrip.ShadowedArgumentsAreLost` | internal/apicompat/stream.go:161-179 | Text and then a call announced together with its arguments: the events break the life cycle and the round trip loses the arguments. |
| `StreamTypes.StreamFramesAre` | internal/apicompat/stream.go:133-184 | The increments of a Chat stream that the theorems speak of are, chunk by chunk and choice by choice, the reasoning, the text, every tool call and the finish reason. |
| `ClientViews.UpKeepsReply` | internal/apicompat/stream.go:93-221 | A client that assembles the translated events gets the text and the reasoning of the Chat stream and its calls in order, each with its id and name, and all arguments if and only if no call is announced with arguments behind other content. |
| `ClientViews.UpStopReason` | internal/apicompat/chat_to_anthropic.go:358-371 | The message stops with "tool_use" if a call was announced before the last finish reason or that reason is tool_calls, with "max_tokens" if it is length, else, and without any finish reason, with "end_turn". |
| `ClientViews.UpOpening` | internal/apicompat/stream.go:121-133 | The message opens with the id and the model of the first chunk, and the uncached prompt that chunk reported. |
| `ClientViews.DownKeepsReply` | internal/apicompat/stream.go:316-405 | Whatever events an Anthropic upstream sends, in any order, the Chat client assembles the text, the thinking and the calls, numbered from 0, that a client of the upstream would. |
| `ClientViews.DownClosing` | internal/apicompat/stream.go:384-439 | The chunk that ends a stream has the last id and model given, the finish reason that the last stop reason and the calls before it stand for, the prompt counts of the last message_start added up, the largest completion count, their total and the cached share; a stream that broke off behind a message_start ends with the same chunk. |
| `ClientViews.DownNames` | internal/apicompat/stream.go:441-453 | Every chunk carries the last id and model given before it. |
| `StreamUsage.UsageReported` | internal/apicompat/stream.go:105-119 | The closing event carries the largest completion, uncached prompt and cached prompt counts of any chunk. |
| `StreamUsage.PromptCountedOnceIff` | internal/apicompat/stream.go:105-119 | For every stream the closing event reports no fewer prompt tokens than any chunk did, and as many as some chunk if and only if one chunk reported the most cached and the most uncached ones. |
| `StreamUsage.PromptCountedTwice` | internal/apicompat/stream.go:105-119 | Two chunks that report the same prompt, first uncached and then cached, make the closing event report it twice over. |
| `StreamUsage.UsageThereAndBack` | internal/apicompat/stream.go:390-439 | Through both translators the completion count survives, while the prompt is what the very first chunk reported without its cached share. |
| `StreamDriver.TranslateChatToAnthropic` | internal/proxy/stream_translate.go:105-180 | The read loop emits exactly the specified events, reports truncation if and only if no end marker came, and failure if and only if it emitted nothing. |
| `StreamDriver.TranslatedIs` | internal/proxy/stream_translate.go:105-167 | The events are those of the finalized stream of the chunks before the first end marker, and whatever the chunks behind it still produce. |
| `StreamDriver.DriverWellFormed` | internal/proxy/stream_translate.go:105-167 | Over every sequence of payloads the client gets nothing or one complete message if and only if nothing that would reach it follows the first end marker; repeated markers, unreadable lines and the finalization at the end add nothing. |
| `StreamDriver.LateTextSpoils` | internal/proxy/stream_translate.go:105-167 | A chunk with text after the end marker makes the output ill-formed. |
| `StreamDriver.NothingProducedIff` | internal/proxy/stream_translate.go:105-180 | The translation produces no event, so that the attempt counts as failed, if and only if no chunk arrived. |
| `StreamDriver.TranslateAnthropicToChat` | internal/proxy/stream_translate.go:105-180 | In the other direction the client gets exactly the specified chunks and one end marker per message_stop, or one in all for a stream that was cut short; the attempt never counts as failed. |
| `StreamDriver.DownOutIs` | internal/proxy/stream_translate.go:126-167 | The chunks are what the reverse translator makes of the lines that parse, in order, and an ending unless a message_stop came. |
| `StreamDriver.NothingButTheEndIff` | internal/proxy/stream_translate.go:127-180 | No chunk is sent, but the end marker alone, if and only if no event begins or ends the message, announces a tool or carries text or thinking. |
| `Normalize.AnthropicBlocks` | internal/apicompat/normalize.go:101-130 | Content of any form becomes its blocks; elements that do not decode are dropped. |
| `Normalize.BlocksAre` | internal/apicompat/normalize.go:101-130 | Text is one block unless it is empty; of a loose list every element that decodes is a block, in order. |
| `Normalize.MergeConsecutive` | internal/apicompat/normalize.go:158-173 | The loop computes the merge of neighbours with equal roles. |
| `Normalize.HasToolInteraction` | internal/apicompat/normalize.go:176-185 | True if and only if some message holds a call or a result. |
| `Normalize.IndexResults` | internal/apicompat/normalize.go:215-222 | The index maps each non-empty id to the last result given for it. |
| `Normalize.NormalizeMessages` | internal/apicompat/normalize.go:201-269 | The repair computes the function that the theorems of `HistoryRepair` are about. |
| `HistoryRepair.MergedAlternates` | internal/apicompat/normalize.go:158-173 | After merging, roles alternate strictly. |
| `HistoryRepair.AlwaysPaired` | internal/apicompat/normalize.go:187-200 | For every input roles alternate, each assistant message's calls are answered, id for id and in order, at the head of the very next user message, and no other non-assistant message holds a result. |
| `HistoryRepair.AcceptableIff` | internal/apicompat/normalize.go:187-200 | All three invariants of the API hold of the result if and only if no result sat in an assistant message and no call in another. |
| `HistoryRepair.Conservation` | internal/apicompat/normalize.go:215-268 | All other blocks keep their role and order, and of the calls exactly those answered somewhere in the input are kept, in order. |
| `HistoryRepair.AnswersAreLast` | internal/apicompat/normalize.go:215-251 | Every result delivered is the last one the input gave for its id. |
| `RepairTwice.IdempotentIff` | internal/apicompat/normalize.go:201-269 | Repairing again changes nothing if and only if no result in an assistant message of the input overrules the answer of a call before it. |
| `RepairTwice.Idempotent` | internal/apicompat/normalize.go:201-269 | In particular the repair is idempotent when assistant messages hold no results, whatever ids and results are repeated. |
| `RepairTwice.Unsettled` | internal/apicompat/normalize.go:201-269 | A four-message history that a second repair changes. |
| `ChatRequest.Split` | internal/apicompat/chat_to_anthropic.go:153-177 | The loops separate the text and the images of a message content. |
| `ChatRequest.ConvertMessages` | internal/apicompat/chat_to_anthropic.go:17-150 | The conversion loop, with held-back tool answers flushed before the next message, computes the system text and the repair of the draft that the lemmas below speak of. |
| `ChatRequest.DraftCarriesTraffic` | internal/apicompat/chat_to_anthropic.go:29-111 | What is handed to the repair is what the chat says, block by block in the chat's order, each under its right role. |
| `ChatRequest.TrafficSaid` | internal/apicompat/chat_to_anthropic.go:46-111 | What a chat says is read off its fields: the text of a message's text parts in one block if there is any, then an assistant's reasoning and each call with its id, name and input, or the image of every other part that has an address; a tool message answers its call with its text or "(empty)". |
| `ChatRequest.SystemIs` | internal/apicompat/chat_to_anthropic.go:36-45 | The system text is that of the system messages that have one, in order, as paragraphs. |
| `ChatRequest.TrafficPlaced` | internal/apicompat/chat_to_anthropic.go:29-111 | Calls come only from the assistant, results only from the user, roles are only those two, and no result is empty. |
| `ChatRequest.EveryRequestIsPaired` | internal/apicompat/chat_to_anthropic.go:17-150 | For every Chat history the request meets all invariants of the API; all that the messages say but calls and answers is kept, in order and under its role; a call is kept if and only if a tool message answers it; each answer is the last one given and not empty; repairing again changes nothing. |
| `RateLedger.Ledger.Allow` | internal/ratelimit/ledger.go:39-62 | Admits a key if and only if its minute and day windows are below their positive limits. |
| `RateLedger.Ledger.Record` | internal/ratelimit/ledger.go:65-80 | Adds one to each limited window of that key and to nothing else. |
| `RateLedger.RecordWithinIff` | internal/ratelimit/ledger.go:39-80 | Recording keeps every window within its limit if and only if the ledger admitted the key. |
| `KeyPool.KeyProvider.SelectKey` | internal/keypool/provider.go:43-178 | The bounded loop returns the search's pick, leaves its pool, and records the pick, cooled fallback included, in the ledger. |
| `KeyPool.KeyProvider.Evict` | internal/keypool/provider.go:94-116 | Unlists a stale entry, and deletes its hash unless all it lacks is the credential. |
| `KeyPool.KeyProvider.HandleSuccess` | internal/keypool/provider.go:273-331 | Resets the count, and re-activates a key that was not active, in row, hash and list; fails only without a live row. |
| `KeyPool.KeyProvider.HandleFailure` | internal/keypool/provider.go:333-382 | Counts the failure and blacklists at a positive threshold, in row, hash and list. |
| `KeyPool.KeyProvider.SetKeyEnabled` | internal/keypool/provider.go:642-685 | Sets row, hash and list; a key without a live row is refused. |
| `KeyPool.KeyProvider.AddKeys` | internal/keypool/provider.go:554-569 | Inserts and caches all keys and pushes them to the list. |
| `KeyPool.KeyProvider.RemoveKeys` | internal/keypool/provider.go:589-637 | Soft-deletes, unlists and uncaches the keys. |
| `KeyPool.KeyProvider.RestoreKeys` | internal/keypool/provider.go:688-723 | Re-activates and lists the invalid keys. |
| `KeyPool.KeyProvider.ReloadKey` | internal/keypool/provider.go:575-586 | Brings the cache of one key in line with its row. |
| `KeyPool.KeyProvider.LoadKeysFromDB` | internal/keypool/provider.go:385-448 | Caches all rows, and replaces the list when a row is active. |
| `KeyPool.KeyProvider.SyncGroupKeysFromDB` | internal/keypool/provider.go:458-517 | Folds the per-row repair over all rows, soft-deleted ones included. |
| `KeyPool.KeyProvider.CoolDownKey` | internal/keypool/provider.go:184-192 | Marks the key until now plus a positive duration, and no other key. |
| `KeySelection.SelectionIsChoice` | internal/keypool/provider.go:43-148 | Selection returns the usable key nearest the tail, else the cooled key nearest the tail, else none, among all entries of a list of up to 512 in any state, and among the last 512 of a longer list without duplicates. |
| `KeySelection.SelectionComplete` | internal/keypool/provider.go:43-148 | With up to 512 entries it finds a key that is cached as active with a credential, on which no cooldown runs, and of which this minute and this day hold fewer requests than the limits, if and only if there is one; else one on which a cooldown runs, if there is one; else none. |
| `KeySelection.SelectionTidies` | internal/keypool/provider.go:64-148 | In every state selection evicts only stale entries, keeps all healthy ones and all other hashes, and leaves the survivors a rotation of their order. |
| `KeySelection.SelectionWithinLimits` | internal/keypool/provider.go:129-178 | A regular pick never takes a window above its limit; the fallback does so if and only if the ledger would not have admitted it. |
| `KeySelection.LimitsHoldIff` | internal/keypool/provider.go:118-178 | From an empty ledger, over every run of selections at any times and from any pools, no key is given to more requests within a clock minute or a day than its limits allow if and only if no request fell back on a cooled key without room. |
| `KeyQueue.KeysRejoin` | internal/keypool/provider.go:273-723 | A key that recovers, is enabled, restored or reloaded stands at the head of the list, behind all others in the rotation, which keep their order; one that is blacklisted or disabled leaves it. |
| `KeyQueue.AddedInFront` | internal/keypool/provider.go:554-569 | Added keys stand in front of all others, in their order. |
| `KeyQueue.SyncRejoins` | internal/keypool/provider.go:458-517 | A sync puts a key that it makes servable at the head, takes one that is not active off, and moves no other. |
| `KeyQueue.HeadIsLast` | internal/keypool/provider.go:43-148 | The key at the head is served only when none of the others can be. |
| `KeyPoolRuns.RunsMirrorLives` | internal/keypool/provider.go:273-723 | Over every run of add, success, failure, enable, disable, reload, restore, remove, sync and select, the list is duplicate-free and holds exactly the active live keys, every hash equals its row, and every key's status and count follow from the operations on that key alone. |
| `KeyPoolRuns.LoadMirrorsIff` | internal/keypool/provider.go:385-448 | A load, onto any cache and list, makes the pool consistent if and only if the list was empty or some row is active, and no cached hash belongs to a key that is no longer live. |
| `KeyPoolRuns.LeftoverStaysListed` | internal/keypool/provider.go:385-448 | The only active key, disabled in its row alone, is still listed after the load. |
| `KeyPoolRuns.StaleHashStays` | internal/keypool/provider.go:385-448 | The hash of a row that was soft-deleted meanwhile is still cached after a load that lists the remaining key. |
| `KeyPoolRuns.AddKeepsIff` | internal/keypool/provider.go:554-569 | Adding fresh keys keeps the pool consistent if and only if all of them are active. |
| `KeyPoolRuns.SyncIsIdle` | internal/keypool/provider.go:458-517 | A sync leaves a consistent pool exactly as it is. |
| `KeyPoolRuns.SelectOnlyRotates` | internal/keypool/provider.go:43-148 | Selection from a consistent pool only rotates the list. |
| `KeyPoolRuns.DisabledStays` | internal/keypool/provider.go:642-685 | Through every run a disabled key stays disabled and unlisted until it is enabled or removed. |
| `KeyPoolRuns.BlacklistedExactly` | internal/keypool/provider.go:333-382 | In every run that does not reset it, a key that starts active and without failures is invalid in row and hash and off the list if and only if some failure brought its count to the positive threshold that failure came with; till then the count is the number of failures. |
| `KeyPoolRuns.SuccessReactivatesIff` | internal/keypool/provider.go:273-331 | A success re-activates a disabled row if and only if the cached status is neither disabled nor active. |
| `KeyPoolRuns.EvictedThenReactivated` | internal/keypool/provider.go:94-116 | One selection evicts a listed disabled key with its hash, and the success of a request under way then re-activates the row. |
| `KeyPoolRuns.EnableServesIff` | internal/keypool/provider.go:642-685 | An enabled key can be served if and only if its credential was cached. |
| `KeyPoolRuns.EnabledThenEvicted` | internal/keypool/provider.go:642-685 | A key enabled without a cached hash is listed, evicted by the next selection and not served. |
| `KeySync.SyncEffect` | internal/keypool/provider.go:458-517 | Each row is repaired once from the state before the sync, every other key is untouched, and no duplicate is listed. |
| `KeySync.SyncRepairs` | internal/keypool/provider.go:450-517 | After any batch of row changes the list is duplicate-free and equals the active live rows if and only if no listed id has lost its row altogether; keys active throughout keep their cached count; all active rows with a credential can be served. |
| `KeySync.VanishedStaysListed` | internal/keypool/provider.go:458-517 | A listed key without a row is still listed after a sync. |
| `KeySync.SyncMirrorsIff` | internal/keypool/provider.go:458-517 | Exactly when the hash of a live row equals its row after a sync. |
| `KeySync.StaleCountStays` | internal/keypool/provider.go:458-517 | A servable key keeps its cached failure count through a sync although its row was reset. |
| `UpstreamRotation.BaseChannel.GetUpstreamURL` | internal/channel/base_channel.go:50-80 | The in-place loop picks the first largest raised balance and charges it the total; none or one upstream leaves the balances alone. |
| `UpstreamRotation.AfterBalanced` | internal/channel/base_channel.go:50-80 | After any number of picks the balances sum to 0, each exceeds minus the total weight, and the weights are unchanged. |
| `UpstreamRotation.BalanceIs` | internal/channel/base_channel.go:50-80 | After k picks a balance is k times the weight minus the total times the picks of that upstream. |
| `UpstreamRotation.NeverAhead` | internal/channel/base_channel.go:50-80 | After k picks no upstream is a whole pick above its share. |
| `UpstreamRotation.NeverStarved` | internal/channel/base_channel.go:50-80 | After k picks no upstream is behind its share by more than the others could be ahead together. |
| `UpstreamRotation.FullRound` | internal/channel/base_channel.go:50-80 | A full round picks each upstream exactly as often as its weight and returns to the first state. |
| `UpstreamRotation.EveryWindowIsFair` | internal/channel/base_channel.go:50-80 | So does every stretch of consecutive picks as long as the total weight. |
| `Sorting.SortedIsStable` | internal/router_engine/selector.go:635-642 | Insertion sort returns an ordered permutation that keeps the order of equals. |
| `CandidateRotation.Selector.SortedView` | internal/router_engine/selector.go:635-642 | The in-place sort, on a copy of the candidates, computes the stable order. |
| `CandidateRotation.ViewIsStable` | internal/router_engine/selector.go:635-652 | The view is ordered by descending weight, then priority, then alias, is a permutation of the candidates, and keeps the order of candidates equal in all three. |
| `CandidateRotation.WeightsDrawn` | internal/router_engine/selector.go:605-617 | The weights of a pick are those drawn, or one each when they do not add up to anything. |
| `CandidateRotation.StateRemembered` | internal/router_engine/selector.go:738-752 | What a pick stores is what the next pick from a pool of that size under its key starts from, through any picks under other keys in between; a pool of another size starts from zeros. |
| `CandidateRotation.Selector.Swrr` | internal/router_engine/selector.go:585-633 | A pick raises the balances by the sampled weights, takes the largest, charges it their total and stores the result under its key; a single candidate is returned as it is. |
| `CandidateRotation.HistoryBalanced` | internal/router_engine/selector.go:585-633 | Across every history of picks, keys, pool sizes and sampled weights of at least 1, each key's balances sum to 0 and stay above minus the largest total seen. |
| `CandidateRotation.BalanceIs` | internal/router_engine/selector.go:585-633 | While the pool keeps its size a balance is what its position earned minus what it was charged. |
| `CandidateRotation.NeverAhead` | internal/router_engine/selector.go:585-633 | No position is ever charged a whole largest round more than it earned. |
| `LwwMerge.MergeField` | internal/services/field_merge.go:171-214 | One field's branches compute the join on version, then presence, then rendered value. |
| `LwwMerge.MergeJSONFields` | internal/services/field_merge.go:153-217 | The loop over all fields, in any order, computes the merge of two columns. |
| `LwwMerge.MergedValue` | internal/services/field_merge.go:171-214 | The newer side's value or deletion is kept; under equal versions a value outlasts a deletion, and of two values the one whose text comes later in the dictionary is kept, the existing one if neither does; the version kept is the larger, if positive. |
| `LwwMerge.CommutativeIff` | internal/services/field_merge.go:147-217 | Both orders of a merge agree if and only if no field has different values of equal rendering under equal versions. |
| `LwwMerge.Associative` | internal/services/field_merge.go:153-217 | Merging is associative for versions that are not negative. |
| `LwwMerge.NegativeVersionsSplit` | internal/services/field_merge.go:153-217 | With negative versions it is not: three states that merge differently. |
| `LwwMerge.IdempotentIff` | internal/services/field_merge.go:153-217 | Merging a state with itself always keeps the values, and changes nothing if and only if all versions are positive. |
| `LwwMerge.StateIsTop` | internal/services/field_merge.go:153-217 | Whatever was merged with what, each field of a state is that of one of its origins, and no origin's is above it. |
| `LwwMerge.ConvergesIff` | internal/services/field_merge.go:146-217 | Columns that came from the same origins by field-by-field merges agree on every value and version, whatever was merged with what, in whatever order and however often, if and only if wherever two origins have different values of one rendering under one version another origin is above them; versions are not negative. |
| `LwwMerge.PresentIff` | internal/services/field_merge.go:153-217 | A state has a field if and only if some origin of it has it under the newest version among its origins. |
| `LwwMerge.DeletionSurvives` | internal/services/field_merge.go:153-217 | A deletion newer than every origin with the field wins in every state that has it among its origins. |
| `GroupMerge.KeysDiffer` | internal/services/field_merge.go:59-78 | Version keys of different columns or fields differ, dots in field names included. |
| `GroupMerge.KeysAre` | internal/services/field_merge.go:31-33 | The keys begin with the names of the three columns as peers know them. |
| `GroupMerge.SliceColumnVersions` | internal/services/field_merge.go:61-70 | Exactly the versions of one column, under their bare field names. |
| `GroupMerge.JoinColumnVersions` | internal/services/field_merge.go:74-78 | Writes one column's versions and leaves all other keys as they were. |
| `GroupMerge.JoinSlices` | internal/services/field_merge.go:59-78 | Slicing after joining gives back the column written, and every other column unchanged. |
| `GroupMerge.StampConfigVersions` | internal/services/field_merge.go:90-111 | Exactly the fields added, removed or changed get the new version; nothing else changes. |
| `GroupMerge.ChangedIff` | internal/services/field_merge.go:90-111 | A field counts as changed if and only if its presence or its JSON text differs. |
| `GroupMerge.MergeGroupJSONColumns` | internal/services/field_merge.go:118-144 | The merged group holds the merge of each of its three columns and no other versions. |
| `GroupMerge.SymmetricIff` | internal/services/field_merge.go:113-144 | Merging (A, B) and (B, A), under any two winner flags, gives the same group if and only if no column versioned on either side clashes and every other column is equal or the flags are opposite. |
| `GroupMerge.RenderingClash` | internal/services/field_merge.go:196-208 | A number on one side and the string of its digits on the other, under equal versions, make the two merges differ. |
| `GroupMerge.EqualTimesApart` | internal/services/field_merge.go:118-144 | Of two groups without versions that were updated at the same time each side keeps its own column. |
| `GroupMerge.FallbackSplits` | internal/services/field_merge.go:118-144 | Three groups for which the fallback makes a field survive or not by the order of the merges. |
| `GroupHistory.ConvergesIff` | internal/services/sync_service.go:434-466 | Over every history of merges from the same origins, with the later record as winner of what has no versions, the column is the same if and only if: without versions anywhere, the latest origins have one column; else no origin without versions has a field that would prevail over a latest one without versions, unless a versioned origin settles that field, and wherever two origins have different values of one rendering under one version another origin is above them. |
| `GroupHistory.OnePlainConverges` | internal/services/sync_service.go:434-466 | When at most one origin has no versions for the column, all histories agree on it if and only if every such clash of renderings is overruled. |
| `GroupHistory.UndecidedSplits` | internal/services/field_merge.go:113-144 | When two latest origins without versions differ in a field that no versioned origin settles for both, two histories differ in the column. |
| `GroupHistory.RemovalSurvives` | internal/services/field_merge.go:87-144 | A field removed by an edit whose stamp is above every version another origin has the field under is absent from every group that has the edit among its origins, through all merges and whichever records win. |
| `Failover.RequestRun.NextP4Candidate` | internal/proxy/server.go:266-287 | Advances the cursor to behind the first candidate not attempted. |
| `Failover.RequestRun.SwitchGroup` | internal/proxy/server.go:645-697 | The loop computes the switch that `FailoverRuns.SwitchGoes` speaks of; never a group already attempted. |
| `FailoverRuns.SwitchGoes` | internal/proxy/server.go:645-697 | The next group is the first candidate behind the cursor that was not tried, if it can be reached; else the first member the selector offers that was not tried, if that can be reached; else there is none. The cursor moves behind the candidate, or to the end. |
| `Failover.RequestRun.ExecuteRequestWithRetry` | internal/proxy/server.go:292-559 | One execution ends the request or hands its failure on, recording attempts, breaker calls and logs in order; it terminates. |
| `Failover.RequestRun.HandleAttemptFailure` | internal/proxy/server.go:586-745 | Switches the sub-group, gives up or retries, under the code's conditions; the pair of groups left and retries left decreases. |
| `FailoverRuns.RequestRuns` | internal/proxy/server.go:292-745 | Every request is a run of executions: one that does not fail ends it; a failed one is retried until its group's allowance is used up, unless the request itself was at fault and neither aggregate nor routing could help; then an aggregate that has written nothing goes on as above, and any other request ends. Each execution records exactly its own events, in order. |
| `FailoverRuns.RunIsOne` | internal/proxy/server.go:292-745 | How a run starts determines all of it. |
| `FailoverRuns.GivesUpWhenNoneLeft` | internal/proxy/server.go:620-745 | An aggregate's request that ends on a failure with nothing written had used up its allowance, and neither the next candidate nor what the selector offered could be reached. |
| `Failover.RequestIsBounded` | internal/proxy/server.go:292-745 | Every request ends; attempts are at most the sum of the allowances of the groups; no group is switched to twice; each has at most its own retries plus one; one retry log per further execution; exactly one final log, except none when the last request could not be built. |
| `Failover.BreakerRecordsOnceIff` | internal/proxy/server.go:486-745 | In an aggregate the executions of a sub-group follow one another and all but the last of the request failed; the breaker hears of the sub-group once per stream broken after its headers, and once more unless the request ended there without success or failure; so at most once if and only if no stream of it broke, or one did and the request ended so on it. |
| `Failover.BrokenStreamRecordsTwice` | internal/proxy/server.go:488-536 | A stream that breaks before its first byte is recorded as a success and then as a failure. |
| `SubGroupSelection.Selector.SelectByWeight` | internal/services/subgroup_manager.go:570-595 | A pick raises every balance by its weight, takes the largest, then the smallest priority, then the first, and charges it the total. |
| `SubGroupSelection.Selector.BestEligibleTier` | internal/services/subgroup_manager.go:539-551 | The loop computes the tier of the specification. |
| `SubGroupSelection.Selector.SelectAmong` | internal/services/subgroup_manager.go:343-466 | For positive weights, from any balances, the rotation ends: one pick follows the other up to the first open sub-group, which is the result; or, when none is open, until all were picked, and the eligible one that recovers first, among equals the one picked first, is the result, or none if none is eligible. The balances afterwards are those of these picks. |
| `SelectionFairness.SelectionsAreFair` | internal/services/subgroup_manager.go:570-595 | From a new selector, while all sub-groups are open and of one tier and the weights do not change, every stretch of selections as long as the weights add up to goes to each sub-group as often as its weight. |
| `SubGroupSelection.BelowCeiling` | internal/services/subgroup_manager.go:412-428 | A sub-group that has not come up yet cannot be passed over for ever: its balance is bounded by what the others can owe. |
| `SubGroupSelection.TierIs` | internal/services/subgroup_manager.go:534-551 | The tier is the priority of a sub-group that is open to the request; it is the smallest of those if and only if no open one has the mark for "no tier" as its priority, or it does no harm. |
| `SubGroupSelection.ReadyMeans` | internal/services/subgroup_manager.go:349-379 | A sub-group is ready when it is not excluded, serves the requested model, if one is requested, and has active keys; and open when no cooldown runs. |
| `SubGroupSelection.ChoiceServes` | internal/services/subgroup_manager.go:343-466 | What is returned is not excluded, serves the model and has active keys; it is out of cooldown, and in the best tier, if and only if some such sub-group is. |
| `SubGroupSelection.DegradesIff` | internal/services/subgroup_manager.go:387-466 | When all that are ready are cooling, one is returned if and only if there are no tiers or a ready one has the mark as its priority, and it is the one that recovers first. |
| `SubGroupSelection.ReturnsIff` | internal/services/subgroup_manager.go:387-466 | Exactly when a sub-group is returned at all. |
| `SubGroupSelection.TiersLoseFallback` | internal/services/subgroup_manager.go:406-460 | Two ready sub-groups of different tiers, both cooling: none is returned. |
| `SubGroupSelection.MarkOverlooked` | internal/services/subgroup_manager.go:539-551 | Of two open sub-groups with priorities -1 and 5 the second is returned. |
| `SubGroupSelection.EngineAccepts` | internal/proxy/server.go:674-675 | What the selector returns is what the failover engine takes for granted: a member it has not attempted. |
| `StatusMatcher.ParseToken` | internal/failover/status_code_matcher.go:63-107 | One token, white space and all, is a blank, a code or a range, or is refused. |
| `StatusMatcher.ParseTokens` | internal/failover/status_code_matcher.go:60-107 | Parsing fails if and only if some token is invalid; else it yields the ranges in order. |
| `StatusMatcher.MergeRanges` | internal/failover/status_code_matcher.go:109-134 | The loop coalesces the sorted ranges. |
| `StatusMatcher.ParseStatusCodeMatcher` | internal/failover/status_code_matcher.go:52-135 | The text of a specification is split at commas and line breaks, parsed, sorted and coalesced; it is refused if and only if a token is invalid. |
| `StatusGrammar.TokenIff` | internal/failover/status_code_matcher.go:63-107 | A token is accepted if and only if, white space around it aside, it is blank, a code from 100 to 999, or two such codes in order around one hyphen, and then it stands for these codes. |
| `StatusGrammar.WrittenSpecMeans` | internal/failover/status_code_matcher.go:41-135 | Codes and ranges written down in any order, between commas or line breaks and with white space around them, are accepted, and exactly their codes match. |
| `StatusMatcher.Match` | internal/failover/status_code_matcher.go:23-36 | Binary search finds a code if and only if some stored range contains it. |
| `StatusMatcher.MatcherMeansTokens` | internal/failover/status_code_matcher.go:52-135 | The stored ranges are sorted with a gap between neighbours, and contain exactly the codes that the tokens name. |
| `StatusMatcher.CanonicalUnique` | internal/failover/status_code_matcher.go:109-134 | Specifications of the same set of codes are stored identically. |
| `Strings.SplitJoins` | internal/paramops/path.go:18-20 | The segments of a path joined by the separator are the path, and none holds the separator. |
| `Strings.AtoiIs` | internal/failover/status_code_matcher.go:80-105 | A number is read from its decimal digits, with or without a sign in front. |
| `Strings.AtoiIff` | internal/failover/status_code_matcher.go:80-105 | Nothing but digits, behind at most one sign, is a number. |
| `Strings.SpacesAre` | internal/failover/status_code_matcher.go:52-65 | The characters that trimming takes for white space are those Unicode calls so. |
| `JsonPath.DottedPath` | internal/paramops/path.go:16-170 | Reading, setting and deleting under segments joined by dots goes from segment to segment; the empty path reads nothing. |
| `JsonPath.ElementsRead` | internal/paramops/path.go:22-63 | The elements of an array are read under the numbers of their places, and the last one under -1; no other negative number is an index. |
| `JsonPath.IndexIff` | internal/paramops/path.go:22-35 | A segment is an index of an array if and only if it is the number of a place, or -1 for the last one. |
| `JsonTree.Container.Walk` | internal/paramops/path.go:66-80 | The descent from container to container ends at the value of the path function. |
| `JsonTree.Container.ResolveParent` | internal/paramops/path.go:84-98 | The container above the last segment, and that segment. |
| `JsonTree.Container.SetPath` | internal/paramops/path.go:101-137 | Set in place fails exactly when the tree function does; else the tree becomes that function's, still reached by one path each, and a failure changes nothing. |
| `JsonTree.Container.RemoveItem` | internal/paramops/path.go:152-159 | The elements behind move up by one, in place, and the last position becomes null. |
| `JsonTree.Container.DeletePath` | internal/paramops/path.go:140-170 | Delete in place is the delete of the tree; a failure changes nothing. |
| `JsonPath.SetSucceedsIff` | internal/paramops/path.go:101-137 | Set succeeds if and only if the parent exists and is an object, or an array that has the index. |
| `JsonPath.SetThenGet` | internal/paramops/path.go:66-137 | After a set every path to the place, however its indices are spelled, and on into the value, reads the value. |
| `JsonPath.SetKeepsApart` | internal/paramops/path.go:101-137 | No path that parts from the one set, after index resolution, is affected. |
| `JsonPath.DeleteSucceedsIff` | internal/paramops/path.go:140-170 | Delete succeeds if and only if there is a value to read. |
| `JsonPath.DeleteRemovesIff` | internal/paramops/path.go:140-170 | The deleted path reads nothing afterwards if and only if its parent was an object. |
| `JsonPath.DeleteShifts` | internal/paramops/path.go:152-159 | Deleting an array element, by any spelling of its index, moves those behind it up and leaves a null at the end. |
| `JsonPath.DeleteKeepsApart` | internal/paramops/path.go:140-170 | Deleting an object field affects no path that parts from it. |
| `JsonPath.MoveHoldsIff` | internal/paramops/paramops.go:337-346 | A move with a readable source and a settable target leaves the old value at the target and nothing at the source if and only if the target path is not empty and either the two places are apart and the source's parent is an object, or the target lies above the source and the value moved has nothing at the rest of the source path. |
| `JsonPath.MoveMoves` | internal/paramops/paramops.go:337-346 | Such a move between places apart changes no other path. |
| `JsonPath.MoveOntoItselfLoses` | internal/paramops/paramops.go:337-346 | Moving an object field onto itself deletes it. |

## Left out

- JSON values inside blocks, tool arguments, tool results and image sources are opaque strings; `max_tokens`, thinking budgets, tool schemas and tool choice are not modelled.
- The whole-response converters, which do not stream.
- SSE framing, timers, idle timeouts, client disconnects while writing and usage capture in the stream driver: a stream is the sequence of payloads read.
- Concurrency: every operation of the key pool, the rotations and the failover engine is one atomic step; `UpdateStatus` and its goroutine are not modelled.
- Database, Redis and transaction errors; the pool has one group, and the rows a query returns, in its order, are parameters.
- Multi-value pushes put the keys in argument order; the order in which Redis would put them is not modelled, and no theorem depends on it.
- Encryption, decryption failures and hashing of credentials.
- The clock is one parameter per call; counters and cooldown marks are never forgotten.
- `SelectionIsChoice`: for lists longer than 512 that hold duplicates only `SelectionTidies` and `SelectionWithinLimits` are stated, since a duplicate can take up the search's attempts.
- Classification of upstream errors, the rules for which failures count, cooldown durations and response writing are part of the oracle of `Failover`.
- How cooldowns come about, and the weights that latency makes of configured ones: the selector's weights are arbitrary positive integers, which do not change while it is locked; sub-groups of weight 0 are not loaded (`internal/services/group_manager.go:52-54`). A failing query for active keys counts as having some, and the answers do not change during one selection.
- Beta and Gamma sampling, latency averages and other floating-point arithmetic: sampled weights are arbitrary integers of at least 1.
- Sticky sessions, candidate filtering and the `auto` alias of the router.
- The reading of versions from JSON numbers, and the `%v` rendering, which is an arbitrary text per value.
- `ConvergesIff`: recorded versions are taken to be positive, as the times of edits are; convergence is stated column by column, and the other fields of a group record are not modelled.
- Text is a sequence of characters; numbers are unbounded where the code refuses those beyond its integers, which no status code or index reaches.
- `SetPath`: the path is followed by recursion where the code follows it in a loop and then stores. Slices typed as `[]map` and `[]string`, here and in `DeletePath`, are not modelled: decoded JSON holds none.
- `MoveHoldsIff`: the code moves a reference where the model moves a value of the tree; into its own subtree that makes a cycle, which the deletion then detaches.
- `copy`, `append`, `prepend`, the string operations, conditions and pipelines of several operations in the body rewriter, which share references between places.
