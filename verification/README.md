# Verified models of the report writer, the gateway and the IM bridge

A Dafny model of the parts of the repository whose guarantees span many steps, many interleavings or several functions,
with proofs of those guarantees. `dafny verify dfyconfig.toml` checks everything.

| file | what it models |
|---|---|
| `Layering.dfy` | ordering report sections into batches by dependency, with the fallback for cycles and unknown ids |
| `WriteRun.dfy` | writing the sections: concurrent section tasks, timeouts, retries, the shared event queue, assembly |
| `LoginLimiter.dfy` | the per-IP login limiter, its lockouts and its eviction |
| `SetupStatus.dfy` | the setup-status endpoint: an in-flight count shared by concurrent requests, and a cache |
| `StreamingChat.dfy` | merging an agent's stream into text, throttled updates, and the closing message |
| `FeishuCard.dfy` | the card a Feishu reply is streamed into, over creation tasks, callbacks and sends |
| `AesKey.dfy` | telling apart the encodings of a WeChat media key |
| `Sse.dfy` | the two server-sent-event printers, the generators using them, and the standard's parser |
| `DiscordSplit.dfy` | splitting a text into Discord messages |
| `ChannelStore.dfy` | the store from (channel, chat, topic) to threads, flattened into colon-separated keys |
| `Evidence.dfy` | from query results to a section's evidence: deduplication, bundles, shared registry, lookup |
| `Migration.dfy` | giving ownerless threads to the admin while paging through the store being updated |
| `Eviction.dfy` | making room in a bounded table, as the limiter and the setup-status cache both do |
| `Decimals.dfy`, `Common.dfy` | decimal numbers; options and lists without repetition |

Protocols are state machines: an action is what a task, a callback, a request or the environment does between two
suspension points, and the theorems quantify over every sequence of enabled actions. What the code does step by step
with loops or fields is a method or a class, proved against a specification function or against the property itself.
Agents, remote calls, clocks and failures are parameters or arbitrary actions.

## Where the code and what is expected of it part

* **The final streamed message can be missing.** If a `values` snapshot's last AI message holds a text block whose text
  is not a string, reading it raises inside the stream loop, and reading it again for the final message raises once
  more, so nothing final is published. The same happens when the last snapshot holds a `present_files` call whose
  arguments are no object, tool calls that cannot be iterated, or messages that cannot. `NoFinalMessage` and
  `NoFinalAfterBadCall` are concrete cases; `FinalIff` is the exact condition, in terms of the shape of the snapshots.
* **Deltas can be mistaken for repetitions.** A delta that the text so far ends with, or that begins with that text, is
  not appended: "bo" and "o" make "bo" (`RepetitionLost`). `FoldIsTrueText` states that this is the only way to lose
  text.
* **A store that lists the latest update last can break the migration.** Paging visits every thread once if an update
  disturbs nothing listed after the page being visited (`EveryThreadOnce`), which any store meets when everything fits
  one page. With a store that moves each updated item to the back, the orphans of a page make the paging skip as many
  of the items after it: the run is complete exactly when none of those is an orphan (`MoveToBackIff`), for orphans
  alone exactly when they fit one page (`OrphansFitOnePage`, `MoveToBackSkips`).
* **Colons in chat ids collide.** `KeyParsesIff` and `ColonsCollide` say when.
* **A section's own timeout handler** (writing-service/app/harness/runners.py:323-339) uses a name that is not
  imported there; timeouts reach `run_write` through `wait_for`, which is what is modelled.

## Model

| member | source | states |
|---|---|---|
| Layering.GetSection | writing-service/app/schemas/structure.py:108-113 | the first section carrying the id, and None exactly when no section does |
| Layering.FindReady | writing-service/app/schemas/structure.py:127-133 | one pass finds exactly the remaining sections whose dependencies are all processed, in structure order, none twice |
| Layering.GetDependencyOrder | writing-service/app/schemas/structure.py:115-145 | for every section list with distinct ids it terminates with a partition of the ids in which an unblocked section stands in the batch numbered by its longest dependency chain and the sections that reach a cycle or an unknown id are the last batch |
| Layering.MarkProcessed | writing-service/app/schemas/structure.py:141-143 | moves exactly the batch's ids from remaining to processed, which shrinks remaining when some id was remaining |
| Layering.RoundPreserved | writing-service/app/schemas/structure.py:126-143 | a round keeps the invariant that processed sections sit by chain length and remaining ones are blocked or have a chain at least as long as the rounds so far |
| Layering.StuckIsBlocked | writing-service/app/schemas/structure.py:135-138 | when nothing remaining can be scheduled, every remaining section reaches a cycle or an unknown id |
| Layering.FallbackPreserved | writing-service/app/schemas/structure.py:135-140 | the fallback batch completes a dependency order and holds only blocked sections |
| Layering.LastBatchIsBlocked | writing-service/app/schemas/structure.py:135-138 | if some section is blocked, the last batch is exactly the set of blocked sections |
| Layering.DependenciesEarlier | writing-service/app/schemas/structure.py:126-143 | an unblocked section has each dependency in a strictly earlier batch |
| Layering.BatchIndependent | writing-service/app/schemas/structure.py:126-143 | no path of dependencies joins an unblocked section to another of its batch |
| Layering.ChainForcesIndex | writing-service/app/schemas/structure.py:126-143 | in any batching that respects dependencies a section with a chain of n links has index at least n |
| Layering.FewestBatches | writing-service/app/schemas/structure.py:126-145 | without blocked sections, no batching that respects dependencies uses fewer batches or places any section earlier |
| WriteRun.WriteSection | writing-service/app/harness/runners.py:275-321 | the retry loop terminates with (Started, writer, editor, checker, Retry) r times and an accepted attempt, r the draft's retry count, within the budget, every earlier verdict "fail", and a last "fail" only with the budget spent |
| WriteRun.OrderedDraftsComplete | writing-service/app/harness/runners.py:439-443 | with a draft for every section, the list to assemble holds exactly each section's draft in structure order |
| WriteRun.StepKeeps | writing-service/app/harness/runners.py:363-464 | every step of a task, of the event loop or of the generator keeps the invariant on bookkeeping, reports, order and ending |
| WriteRun.Reachable | writing-service/app/harness/runners.py:363-464 | the invariant holds after every interleaving of task steps, failures, timeouts and generator steps |
| WriteRun.WriterAfterDependencies | writing-service/app/harness/runners.py:363-434 | a section has a task only once each of its dependencies has a stored draft, written or timed out |
| WriteRun.BatchesInOrder | writing-service/app/harness/runners.py:365-434 | every yielded event of a batch precedes every yielded event of a later batch |
| WriteRun.CompleteIsLast | writing-service/app/harness/runners.py:436-464 | the complete event occurs at most once, last, directly after the assembling event, and never after an error |
| WriteRun.NothingAfterError | writing-service/app/harness/runners.py:424-464 | after an error event at most the outer handler's error event follows |
| WriteRun.AssembledFromAll | writing-service/app/harness/runners.py:436-451 | the assembler gets one draft per section in structure order, the returned or the timeout draft, and each section has exactly one completion before the assembling event, whatever the order of completion |
| WriteRun.ReturnedSectionReports | writing-service/app/harness/runners.py:275-321 | in every interleaving the reports of a section that returned, projected from the shared stream, are r failed attempts and one accepted, r its retry count; it was checked r + 1 times, failed the first r times, and returned the content and status of the last |
| WriteRun.VerdictsDecide | writing-service/app/harness/runners.py:275-321 | by the checker's answers alone: a section is retried once for each "fail" while retries are left, returns at the first other verdict or when they are spent, with that verdict's content and status; every verdict and every retry, with its number and notes, is reported as given |
| WriteRun.ActionsDecide | writing-service/app/harness/runners.py:363-464 | a section has failed or timed out exactly if an agent raised in it or its time ran out; errors name a section in which an agent raised; the complete event carries what the assembler returned |
| WriteRun.CompletedWith | writing-service/app/harness/runners.py:363-464 | a run completes only if nothing raised; the assembler was given, for each section, the timeout notice if its time ran out and the content and status of its last verdict if not |
| WriteRun.NeverStuck | writing-service/app/harness/runners.py:367-464 | every reachable state that has neither completed nor stopped has an action other than a failure, a timeout or a poll that finds nothing |
| WriteRun.EndsCompleted | writing-service/app/harness/runners.py:367-464 | a run in which no agent and not the assembler raises, however many sections time out, and which can go forward no more, has completed |
| WriteRun.RunLength | writing-service/app/harness/runners.py:275-464 | a run has at most 3 + (16 + 8 * max_retries) * sections actions, and three more for each poll that finds nothing: nothing but idle polling can go on for ever |
| WriteRun.CanComplete | writing-service/app/harness/runners.py:363-464 | from every reachable state in which nothing has raised, a run can be continued to completion without any failure, timeout or idle poll |
| LoginLimiter.SortSorts | backend/app/gateway/routers/auth.py:255-255 | sorting by lock time gives an ascending list of the same entries |
| LoginLimiter.DropsFirstHalf | backend/app/gateway/routers/auth.py:255-257 | dropping the first half of the sorted entries leaves survivors locked at least as long as every dropped entry |
| LoginLimiter.Limiter.CheckRateLimit | backend/app/gateway/routers/auth.py:226-238 | limited exactly with five failures or more before the lock time; an expired lockout, and nothing else, is forgotten |
| LoginLimiter.Limiter.Evict | backend/app/gateway/routers/auth.py:247-257 | under the cap nothing is dropped; at the cap expired lockouts go, and if that is not enough the half locked least |
| LoginLimiter.Limiter.RecordLoginFailure | backend/app/gateway/routers/auth.py:244-265 | eviction, then the failure is counted and the fifth one locks for 300 seconds |
| LoginLimiter.Limiter.RecordLoginSuccess | backend/app/gateway/routers/auth.py:268-270 | exactly this address is forgotten |
| LoginLimiter.Perform | backend/app/gateway/routers/auth.py:226-270 | the methods take every step of a run |
| LoginLimiter.EvictionMeans | backend/app/gateway/routers/auth.py:247-257 | nothing goes from fewer than 10000 entries; otherwise exactly the expired lockouts, and only if 10000 others remain, half of those, none locked longer than one that stays |
| LoginLimiter.TableBounded | backend/app/gateway/routers/auth.py:226-270 | in every reachable state at most 10000 entries, each with a positive lock time exactly when it counts at least five failures |
| LoginLimiter.LockoutDroppedLast | backend/app/gateway/routers/auth.py:253-257 | a pressure eviction drops a lockout only when all records below the threshold go too and cannot fill the dropped half |
| LoginLimiter.RunTracks | backend/app/gateway/routers/auth.py:226-295 | unless a pressure eviction drops it, an address's record agrees with its failures since its last success, which come in groups of five a lockout apart; dropping its expired lockout does no harm |
| LoginLimiter.FailureWindow | backend/app/gateway/routers/auth.py:226-295 | unless a pressure eviction drops its record, failures of an address less than 300 seconds apart with no success between them number at most five |
| LoginLimiter.RefusedExactly | backend/app/gateway/routers/auth.py:226-295 | unless a pressure eviction drops its record, a check of an address is refused exactly when its failures since the last success come to a positive multiple of five and the last is less than 300 seconds old |
| SetupStatus.SingleFlightKept | backend/app/gateway/routers/auth.py:397-451 | every action keeps each unfinished count registered for its address |
| SetupStatus.OneCountPerIp | backend/app/gateway/routers/auth.py:410-444 | over all interleavings at most one count per address is unfinished |
| SetupStatus.TrueNeverCached | backend/app/gateway/routers/auth.py:403-451 | the cache only holds False and True is never answered from it |
| SetupStatus.FalseIsCorrect | backend/app/gateway/routers/auth.py:397-451 | if admins are never removed, a False answer, cached or joined, is given only when an admin exists |
| SetupStatus.AnswersWereCounted | backend/app/gateway/routers/auth.py:397-451 | every answer, cached, shared or own, is what some count for that address found in the run: True only if there was no admin then, False only if there was one |
| SetupStatus.RaisedForCause | backend/app/gateway/routers/auth.py:410-444 | a request raises only if it was cancelled or a count for its address broke |
| SetupStatus.AnsweredFromCache | backend/app/gateway/routers/auth.py:403-444 | a request is answered from the cache exactly when its address has an answer less than 60 seconds old; otherwise it awaits the count in flight for its address, or starts one |
| SetupStatus.ToldAgain | backend/app/gateway/routers/auth.py:403-451 | an address told False is told so again for 60 seconds without a count |
| SetupStatus.AsksAgain | backend/app/gateway/routers/auth.py:403-451 | 60 seconds later it is not answered from the cache |
| SetupStatus.CountsAgain | backend/app/gateway/routers/auth.py:403-451 | an address told True is not answered from the cache next |
| SetupStatus.CountsAreAwaited | backend/app/gateway/routers/auth.py:418-444 | in every run a count stays registered only while some request awaits it |
| SetupStatus.AdminsAre | backend/app/gateway/routers/auth.py:433-433 | what a count finds depends on the admins there were at the start and those added and removed since |
| SetupStatus.CacheBounded | backend/app/gateway/routers/auth.py:420-451 | in every run in which at most n < 10000 addresses are being counted at once, the cache never holds more than 9999 + n answers, although it is cut down only when a count is started; 2 n + 1 bounds it for larger n |
| SetupStatus.CanEnd | backend/app/gateway/routers/auth.py:397-451 | in every run each request that has arrived can be brought to its end without breaking a count or cancelling a request |
| SetupStatus.EvictionMeans | backend/app/gateway/routers/auth.py:420-430 | nothing goes from fewer than 10000 cached answers; otherwise exactly those older than 60 seconds, and only if 10000 remain, half of those, none cached later than one that stays |
| StreamingChat.MergeOnlyGrows | backend/app/channels/manager.py:229-239 | the old text is a prefix of the new, repeating a chunk changes nothing, and the new text ends with the chunk |
| StreamingChat.DeltaMerges | backend/app/channels/manager.py:229-239 | a delta is appended exactly when it is not ambiguous |
| StreamingChat.SnapshotMerges | backend/app/channels/manager.py:229-239 | a snapshot becomes the text exactly when it extends it |
| StreamingChat.FoldIsTrueText | backend/app/channels/manager.py:229-239 | any mix of deltas and snapshots yields the true text after every chunk exactly when no delta is ambiguous |
| StreamingChat.RepetitionLost | backend/app/channels/manager.py:229-239 | a delta that repeats the last letter is lost |
| StreamingChat.StreamBuffers.Accumulate | backend/app/channels/manager.py:258-292 | only the buffer of the message the chunk names grows, by the merge of the text the chunk brings; a chunk that brings none changes nothing; tool payloads bring none, whatever the type of their type |
| StreamingChat.BlocksSayIff | backend/app/channels/manager.py:203-226 | the text of a list of blocks is the strings, or the "text" strings of objects, or for want of these their "content" strings, one after the other |
| StreamingChat.BlocksSayBoth | backend/app/channels/manager.py:207-220 | two lists of blocks together say what the first says and then what the second says |
| StreamingChat.RouteIff | backend/app/channels/manager.py:203-292 | a chunk is read as text for a message exactly when it brings that text, and goes to the first nonempty id or message_id of payload, metadata and kwargs, or else to the message before |
| StreamingChat.ChunkFollowed | backend/app/channels/manager.py:258-292 | every chunk brings a text or nothing; what it brings is merged into its message's buffer and no other |
| StreamingChat.ToolPayloadIff | backend/app/channels/manager.py:280-282 | a payload is hidden exactly when its type, printed, spells the word tool in any case: a string does, or the printed form of what a list or an object holds, where a tab shows as a backslash and a t |
| StreamingChat.ToolTypesHide | backend/app/channels/manager.py:280-282 | a payload is hidden whose type contains the word tool, or is a list or an object holding such a string |
| StreamingChat.AgentTypesPass | backend/app/channels/manager.py:280-282 | payloads of the agent's own types are not |
| StreamingChat.BufferIsOwnFold | backend/app/channels/manager.py:258-292 | however messages interleave, each buffer is the fold of its own message's chunks |
| StreamingChat.ToolsIgnored | backend/app/channels/manager.py:280-282 | a payload whose type, printed, mentions a tool in any case leaves every buffer and the current message as they were, whatever kind of value the type is |
| StreamingChat.ExtractResponseText | backend/app/channels/manager.py:149-200 | the backward scan computes the response text, or raises, as specified |
| StreamingChat.ScanTextIff | backend/app/channels/manager.py:166-200 | the text is that of the last message not skipped, and the scan raises exactly when that message's blocks cannot be joined |
| StreamingChat.UnjoinableIff | backend/app/channels/manager.py:149-200 | reading the text raises exactly when the messages cannot be iterated or an AI message with a text block whose text is no string is followed only by messages that say nothing |
| StreamingChat.AnswersIff | backend/app/channels/manager.py:149-200 | a result's text is exactly what its last message that is not quiet says: an AI message's text or text blocks, or a clarification question; nothing if that is a human message |
| StreamingChat.ExtractArtifacts | backend/app/channels/manager.py:295-325 | the backward scan computes the presented paths, or raises, as specified |
| StreamingChat.ScanPathsIff | backend/app/channels/manager.py:310-325 | a path is an artifact exactly when a present_files call of an AI message after the last human one lists it; the scan raises exactly when such a message has tool calls that cannot be iterated or a call whose arguments are no object |
| StreamingChat.UnlistableIff | backend/app/channels/manager.py:295-325 | reading the artifacts raises exactly when the messages cannot be iterated or one after the last human one has such tool calls |
| StreamingChat.ArtifactsInOrder | backend/app/channels/manager.py:295-325 | the newest message's paths come first, those of one message in the order of its calls |
| StreamingChat.EveryArtifactNamed | backend/app/channels/manager.py:328-415 | the delivered text starts with the answer and names every artifact; only files under the outputs directory are attached |
| StreamingChat.AttachmentsAre | backend/app/channels/manager.py:341-415 | attached are exactly the artifacts that are files under the outputs directory, in their order, and all others are named apart |
| StreamingChat.DeliveredIs | backend/app/channels/manager.py:328-415 | the delivered text is the answer, a line with the file names of what is not attached, and a line with those of what is |
| StreamingChat.Finish | backend/app/channels/manager.py:891-927 | the finally block publishes the specified final message, or raises before it |
| StreamingChat.HandleStreamingChat | backend/app/channels/manager.py:823-927 | for every stream, clock and ending, while waiting for a chunk or while publishing an update, the handler publishes exactly the specified updates and final message |
| StreamingChat.UpdatesThrottled | backend/app/channels/manager.py:865-884 | updates are nonempty, consecutive ones differ and are 0.35 s apart, so n of them span at least 0.35 (n - 1) s |
| StreamingChat.NeverStale | backend/app/channels/manager.py:865-884 | after every chunk the last update shows the latest text unless less than 0.35 s have passed since it |
| StreamingChat.LatestIs | backend/app/channels/manager.py:855-863 | the latest text is what the last chunk with something to show made it: a message's merged text, or a snapshot's answer |
| StreamingChat.FinalIff | backend/app/channels/manager.py:855-927 | the final message is published exactly when no delivered snapshot has the shape that makes reading its text raise, and the last one not the shape that makes reading its artifacts raise |
| StreamingChat.OneFinalLast | backend/app/channels/manager.py:865-927 | the final message is the last one, the only final one, and not empty; the others are the updates |
| StreamingChat.LastTextIsFinal | backend/app/channels/manager.py:891-927 | without snapshots the final message is the last accumulated text, however the stream ended |
| StreamingChat.NothingToShow | backend/app/channels/manager.py:897-906 | with nothing to show, a rejected stream ends in the busy message, a failed one in the error message, any other in the text streamed before or a placeholder |
| StreamingChat.SnapshotIsFinal | backend/app/channels/manager.py:891-926 | with a readable last snapshot the final message starts with the snapshot's answer, carries and names exactly the files its messages present, and attaches exactly those that are files under the outputs directory |
| StreamingChat.NoFinalMessage | backend/app/channels/manager.py:859-894 | a snapshot with a text block without text, after which nothing is published |
| StreamingChat.NoFinalAfterBadCall | backend/app/channels/manager.py:859-894 | a snapshot with a good text and a tool call without arguments, after which only the update is published |
| StreamingChat.MessageDelivered | backend/app/channels/manager.py:823-927 | a message streamed in unambiguous deltas and snapshots, among ignored chunks and agreeing state snapshots and after any other messages, is delivered whole by the final message, and every update from its first chunk on shows a beginning of it or still the text before it |
| FeishuCard.FeishuChannel.EnsureRunningCardStarted | backend/app/channels/feishu.py:473-486 | a creation is started exactly when the source has neither a card nor a task on record |
| FeishuCard.FeishuChannel.EnsureRunningCard | backend/app/channels/feishu.py:493-502 | gives the card on record, or starts or finds the task to await |
| FeishuCard.FeishuChannel.SendCardMessage | backend/app/channels/feishu.py:511-549 | an attempt patches the card on record, or else awaits the creation on record, or else replies if it is the final one, or else starts a creation with its text |
| FeishuCard.FeishuChannel.FinishCreation | backend/app/channels/feishu.py:463-471 | a finished creation records its id exactly when it has one |
| FeishuCard.FeishuChannel.FinalizeRunningCardTask | backend/app/channels/feishu.py:488-491 | the done-callback forgets the task on record only when it is its own |
| FeishuCard.Perform | backend/app/channels/feishu.py:463-552 | the methods carry out the effect of every action of the state machine on the dictionaries |
| FeishuCard.NextKept | backend/app/channels/feishu.py:463-552 | every step of a creation, callback or send, of this or another conversation, keeps a conversation's invariant |
| FeishuCard.OneCreationAtATime | backend/app/channels/feishu.py:463-503 | in every interleaving at most one creation for a source message is outstanding |
| FeishuCard.OnRecordUntilCallback | backend/app/channels/feishu.py:473-491 | in every run a creation is on record for its source exactly until its done-callback has run |
| FeishuCard.OneCardUntilFinal | backend/app/channels/feishu.py:511-552 | until a final message drops it at most one card is recorded and every patch is made to it |
| FeishuCard.PatchesTheLastCard | backend/app/channels/feishu.py:511-552 | every patch is made to the card recorded last, with no final message in between |
| FeishuCard.FinalDelivered | backend/app/channels/feishu.py:511-552 | a final send that returned put its text by exactly one successful patch or reply and leaves no recorded id and no creation that could record one; one that raised put nothing |
| FeishuCard.UpdateDelivered | backend/app/channels/feishu.py:190-552 | a send that is not the final one and returned put its text by exactly one successful patch, or awaited a creation that gave no id, or had a card created with its text; one that raised put nothing |
| FeishuCard.CallsFit | backend/app/channels/feishu.py:511-552 | cards are started and messages skipped only where there is no card, and a reply is made only there or right after the card in use could not be patched with the same text |
| FeishuCard.ThirdFailureRaises | backend/app/channels/feishu.py:202-223 | a send raises exactly at its third failed attempt |
| FeishuCard.NoSendHangs | backend/app/channels/feishu.py:190-223 | in every run something can happen next to a send under way, or to the creation it awaits |
| FeishuCard.InboundStartsCard | backend/app/channels/feishu.py:578-583 | the first message of a conversation starts a card saying that work is under way |
| AesKey.HexReads | backend/app/channels/wechat.py:1095-1100 | hex of either case is read back (section 8 of RFC 4648) |
| AesKey.HexReadsIff | backend/app/channels/wechat.py:1095-1100 | a text is read as hex exactly when it is hex with white space between bytes |
| AesKey.B64DecodesBack | backend/app/channels/wechat.py:1102-1106 | strict and lenient decoding undo base64 of any bytes (section 4 of RFC 4648) |
| AesKey.UrlTextStrict | backend/app/channels/wechat.py:1102-1114 | a URL-safe text is the standard text or is refused by the strict decoder, so it is never misread (section 5 of RFC 4648) |
| AesKey.AfterPadding | backend/app/channels/wechat.py:1102-1106 | after the padding the strict decoder accepts nothing and the lenient one reads nothing |
| AesKey.StrictAddsNothing | backend/app/channels/wechat.py:1102-1114 | what the strict decoder accepts the lenient one reads alike, so trying it first changes nothing |
| AesKey.Utf8DecodesIff | backend/app/channels/wechat.py:1087-1090 | bytes are decoded to a text exactly when they are its encoding (section 3 of RFC 3629) |
| AesKey.Base64Reads | backend/app/channels/wechat.py:1075-1114 | base64, standard or URL-safe, padded or not, of a key or of its hex is read as the key |
| AesKey.HexExcludesBase64 | backend/app/channels/wechat.py:1117-1149 | no text is a key to both parsers |
| AesKey.OrderIrrelevant | backend/app/channels/wechat.py:1117-1149 | for every value it makes no difference which parser is tried first |
| AesKey.LenientReadsIff | backend/app/channels/wechat.py:1102-1106 | the lenient decoder reads the bytes packed into the sextets before the equal sign that ends them, whatever else stands between, and fails exactly if it finds no such sign and an incomplete group |
| AesKey.StripIff | backend/app/channels/wechat.py:1076-1088 | stripping leaves what neither begins nor ends with a character to drop, and takes nothing else away |
| AesKey.BlankIff | backend/app/channels/wechat.py:1076-1076 | the characters a strip without argument drops |
| AesKey.ValueIff | backend/app/channels/wechat.py:1103-1106 | a character stands for a sextet exactly when it is that sextet's in the alphabet (section 4 of RFC 4648) |
| AesKey.ParseKeyIff | backend/app/channels/wechat.py:1075-1149 | a text is parsed to a key exactly when, stripped, it is the key's hex, with white space between bytes, or, filled up, base64 of the key's bytes or of the UTF-8 of its hex within white space, quotes and apostrophes |
| AesKey.BytesAreKeys | backend/app/channels/wechat.py:1118-1131 | bytes are a key exactly when there are sixteen; values that are neither bytes nor text are none |
| AesKey.NonAsciiIsNoKey | backend/app/channels/wechat.py:1133-1149 | a text holding a character outside ASCII that is no white space is no key |
| AesKey.EveryEncodingParses | backend/app/channels/wechat.py:1075-1149 | every encoding of a 16-byte key, quoted hex in base64 included, with white space around it, is parsed to that key, whichever parser is tried first |
| AesKey.NeverConfused | backend/app/channels/wechat.py:1075-1149 | no text encodes two keys |
| AesKey.OutboundParses | backend/app/channels/wechat.py:111-112 | what the encoder emits is parsed back to its key |
| AesKey.PayloadKeyIsFirst | backend/app/channels/wechat.py:1152-1169 | although fields are parsed with different preferences, a payload gives the first key under its six names, in their order, and then under those of its media |
| AesKey.ResolveMediaAesKey | backend/app/channels/wechat.py:1152-1169 | over several payloads and their media the result is the key at the first place that holds one, by payload, depth and name, and None exactly if no place does |
| Sse.ParsesBack | backend/app/gateway/services.py:46-59 | parsing any concatenation of frames of either printer and comments, as section 9.2.6 of the WHATWG HTML Living Standard says, gives back exactly the events sent with their data and last ids |
| Sse.ParseFrame | writing-service/app/sse.py:17-47 | the lines of both printers, in their different orders, make the same event |
| Sse.PrintedLines | writing-service/app/sse.py:17-47 | each printer's text is its lines, each ended by a line feed, with the blank line that dispatches |
| Sse.StreamToSse | writing-service/app/sse.py:50-109 | the generator yields exactly the printed heartbeats, numbered events and error events specified |
| Sse.EventsNumbered | writing-service/app/sse.py:79-99 | every event is shown once in order, with its number or as an error that leaves the last id as it was |
| Sse.StreamDecodes | writing-service/app/sse.py:50-109 | parsing what is yielded gives one event for each event of the iterator, heartbeats notwithstanding, and one error event more if it fails |
| Sse.HeartbeatsWhenDue | writing-service/app/sse.py:67-99 | heartbeats stand exactly before the events that come an interval or more after the last heartbeat, or the start |
| Sse.SseConsumer | backend/app/gateway/services.py:386-399 | the consumer yields the frames of the entries up to the end marker or the first that finds the client gone |
| Sse.ConsumerDecodes | backend/app/gateway/services.py:386-399 | parsing what it yields gives exactly the entries sent, heartbeats left out |
| Sse.SentUntil | backend/app/gateway/services.py:386-399 | the consumer goes on until it finds the client gone or has sent the end marker, and no further |
| Sse.EntriesReach | backend/app/gateway/services.py:386-399 | every entry that is no heartbeat reaches the client once, in order, with its type, payload and id |
| DiscordSplit.SplitText | backend/app/channels/discord.py:537-553 | the loop terminates with the specified chunks |
| DiscordSplit.OnlyNewlinesDropped | backend/app/channels/discord.py:537-553 | the text is the chunks with only newlines dropped between or after them |
| DiscordSplit.ChunksFit | backend/app/channels/discord.py:537-553 | every chunk has at most 2000 characters and is nonempty for nonempty text |
| DiscordSplit.CutsAtNewline | backend/app/channels/discord.py:537-553 | a text of at most 2000 characters is one message; a longer one is cut at the last newline within 2000 characters, or after 2000 if there is none, and the newlines there are dropped |
| DiscordSplit.PairsLong | backend/app/channels/discord.py:541-553 | two consecutive chunks hold at least 1999 characters together |
| DiscordSplit.FewMessages | backend/app/channels/discord.py:537-553 | n characters give at most 2 floor(n / 1999) + 1 chunks |
| ChannelStore.KeyParsesIff | backend/app/channels/store.py:75-78 | a triple comes back from its key exactly when channel and chat hold no colon |
| ChannelStore.KeysDistinct | backend/app/channels/store.py:75-78 | colon-free triples share a key only when they are equal |
| ChannelStore.ColonsCollide | backend/app/channels/store.py:75-78 | a chat id with a colon shares its key with a topic of another chat |
| ChannelStore.UnderChat | backend/app/channels/store.py:109-137 | the keys removal without a topic matches are exactly that chat's |
| ChannelStore.Store.GetThreadId | backend/app/channels/store.py:82-85 | the thread stored under the triple's key |
| ChannelStore.Store.SetThreadId | backend/app/channels/store.py:87-107 | only the triple's entry changes, keeping its creation time and its place; a new one goes last |
| ChannelStore.Store.Remove | backend/app/channels/store.py:109-137 | exactly the mapping, or all mappings of the chat, go, the others keep their order, and the result says whether any did |
| ChannelStore.Store.ListEntries | backend/app/channels/store.py:139-153 | the items of the selected keys, in insertion order |
| ChannelStore.ChosenAre | backend/app/channels/store.py:139-153 | the selected keys are exactly those of the channel, each once |
| ChannelStore.ListingRecovers | backend/app/channels/store.py:139-153 | listing recovers a colon-free triple and its entry |
| ChannelStore.RunsStayPlain | backend/app/channels/store.py:87-137 | a store whose keys come from colon-free triples stays one under any run of sets and removals of such |
| ChannelStore.ListingComplete | backend/app/channels/store.py:139-153 | for a store whose keys come from colon-free triples, the listing shows each stored triple of the channel with its entry, by exactly one item, and nothing else |
| ChannelStore.StoreRefinesMap | backend/app/channels/store.py:74-153 | over any run of colon-free operations what is stored for a triple is what its own history says |
| ChannelStore.CreatedAtFirstSet | backend/app/channels/store.py:87-107 | the creation time stays that of the first set since the last removal |
| Evidence.EvidenceIdsDiffer | writing-service/app/agents/coverage_evaluator.py:172-180 | zero-padded evidence ids are never shared |
| Evidence.EvidenceIdIs | writing-service/app/agents/coverage_evaluator.py:172-180 | an id is its number in three digits at least |
| Evidence.HitIff | writing-service/app/agents/coverage_evaluator.py:158-220 | what is deduplicated is every result of every query, and nothing else |
| Evidence.HitsSplit | writing-service/app/agents/coverage_evaluator.py:158-220 | the results are gone through query by query, whichever way the queries are divided |
| Evidence.HitsOfOne | writing-service/app/agents/coverage_evaluator.py:158-220 | and those of one query in their order, each with its query |
| Evidence.DocQueriesSplit | writing-service/app/agents/coverage_evaluator.py:158-220 | the queries of a document are noted in the order of its results |
| Evidence.DocQueriesOfOne | writing-service/app/agents/coverage_evaluator.py:158-220 | each result of the document, and no other, notes its query |
| Evidence.PoolMeans | writing-service/app/agents/coverage_evaluator.py:158-220 | the pool has one item per document returned, numbered by first appearance, each showing its document as first returned, exactly the queries that returned it, once each, and the last score of each |
| Evidence.UpdateItem | writing-service/app/agents/coverage_evaluator.py:211-218 | the search by evidence id updates the document's item and no other |
| Evidence.DeduplicateResults | writing-service/app/agents/coverage_evaluator.py:158-220 | the nested loops compute the pool, and for each document the queries that returned it, once per result |
| Evidence.AssignBundles | writing-service/app/agents/coverage_evaluator.py:223-249 | one bundle a section, listing each item that some query assigned to the section returned, and no other, once |
| Evidence.BuildSharedRegistry | writing-service/app/agents/coverage_evaluator.py:252-286 | one entry for each item in the bundles of two or more sections, listing exactly those, with its last interpretation or the default |
| Evidence.Evaluate | writing-service/app/agents/coverage_evaluator.py:382-405 | the steps compose into a package meeting all three |
| Evidence.SectionItems | writing-service/app/schemas/evidence.py:181-190 | an item is a section's evidence exactly when some query assigned to the section returned its document |
| Evidence.SectionEvidence | writing-service/app/schemas/evidence.py:181-190 | end to end, a section's evidence is in order of first appearance, without repetition, exactly the documents some query assigned to it returned, with faithful provenance |
| Evidence.EvidenceOf | writing-service/app/schemas/evidence.py:181-190 | a document is evidence of a section exactly when some query assigned to the section returned it |
| Evidence.SharedEvidence | writing-service/app/agents/coverage_evaluator.py:252-286 | the registry lists exactly the items that are evidence of two or more sections, with those sections |
| Evidence.InterpretationIs | writing-service/app/agents/coverage_evaluator.py:252-286 | an item's interpretation is the last one given, and a stock phrase if there is none |
| Migration.VisitPage | backend/app/gateway/app.py:150-156 | the items of a page are visited in turn, each ownerless one updated and counted |
| Migration.MigrateOrphanedThreads | backend/app/gateway/app.py:123-157 | the loop terminates with the listing and count of the specified visits, for any store whose updates only rearrange |
| Migration.SweepOne | backend/app/gateway/app.py:151-156 | a visit finds its item before the end of its page, owns it, and leaves the next pages where they were listed |
| Migration.EveryThreadOnce | backend/app/gateway/app.py:123-157 | if updates disturb nothing listed after the page being visited, every item is visited once in order, only ownerless items change, and the count is the number of orphans |
| Migration.AllOwned | backend/app/gateway/app.py:142-157 | afterwards everything has an owner |
| Migration.ItemsKept | backend/app/gateway/app.py:142-157 | nothing but the missing owners has changed: the same keys with the same contents, none lost or added |
| Migration.MigrateTwice | backend/app/gateway/app.py:142-157 | the first run counts the orphans, a second counts none |
| Migration.StableAndMoveToFrontQualify | backend/app/gateway/app.py:123-139 | stores that keep the order or move updates to the front qualify, for every page size |
| Migration.OnePageQualifies | backend/app/gateway/app.py:123-140 | every store qualifies for listings that fit one page |
| Migration.MoveToBackSkips | backend/app/gateway/app.py:123-157 | for every page size and every listing of more orphans than a page holds, a store that moves updates to the back is left with the first orphan after page one |
| Migration.MoveToBackIff | backend/app/gateway/app.py:123-157 | for every listing and page size, such a store ends with an owner for everything exactly when no orphan is among the items skipped, as many after each page as it has orphans |
| Migration.OrphansFitOnePage | backend/app/gateway/app.py:123-157 | for a listing of orphans that is exactly when it fits one page |

## Left out

- FailureWindow: is stated for logins of one address handled one at a time, since the check and the recording are separated by an await, and for runs in which no pressure eviction drops its record; other addresses interleave freely.
- RefusedExactly: the same holds of it; logins of one address that overlap may be checked before an earlier one's failure is recorded.
- TableBounded: assumes clock readings that are not negative.
- FalseIsCorrect: assumes admins are never removed; the code has no defence against that within the cache's lifetime.
- ReturnedSectionReports: says nothing of a timed-out section's last event, since its queued events may follow its completion.
- HandleStreamingChat: routing fields of outbound messages are left out, and whether an artifact path resolves to a file is a parameter.
- NextKept: sends for one source message come one after another and its inbound message comes first; the event loop is taken to be first in, first out, so that the done-callback of a finished creation runs before a patch made to its card is answered; cancelling tasks when the channel stops, messages without a source message id, files, and API responses that report failure without raising are left out; the channel is one that has been started.
- EveryThreadOnce: assumes that no thread is added or removed meanwhile and that updates succeed; of the stores that disturb later pages only the move-to-back store is worked out.
- AssignBundles: the order of ids inside a bundle comes from a set and is arbitrary.
- UpdateItem: an item is replaced in the pool's list of values; that it is the same object elsewhere is not captured.
- StreamDecodes: the reconnection time, splitting of the stream by the network, and cancelling the run when a client disconnects are not modelled.
- Agents, prompts, model calls and what a draft says: an agent's result is arbitrary.
- External cancellation of `run_write` and closing its generator early; `run_revise`, which repeats one section's steps without concurrency.
- Which of several entries with the same lock time or cache time is evicted: any choice is allowed.
- Client address extraction, cookies, password rules and the other routes of the auth router.
- AES, bcrypt, JWT and json.dumps: for events only that a payload has no line break.
- WeChat: persisted cursors and tokens, the poll loop, uploads and downloads.
- The thread store's file: loading, atomic saving and locking; a stored entry always has its fields.
- Gap reports and follow-up gaps, which copy an assessment field by field, and the retrieval date of an item.
- HTTP, platform SDKs, file writes, logging, the frontend, the setup scripts and everything in the agent runtime whose source is elsewhere.
