# Verification of the group-chat bot

A Dafny 4.11 model of the bot's concurrent message pipeline, its prompt-window cache and the smaller
protocols around them, with proofs of what they promise. `dafny verify dfyconfig.toml` checks all of it.

## What is modelled

**The message pipeline.** A message passes four nodes: sync, command, assets and agent. Each node is a
bounded buffer with one FIFO queue per conversation and a fixed pool of workers that serve one
conversation at a time. `Buffers` and `Consumers` hold the two classes as the program has them, method
by method, together with the functions that specify them. `NodeProtocol` runs one node as a state
machine of atomic steps: any number of goroutines putting and submitting, any number of workers
scanning, sleeping, taking, calling, delivering, retrying and releasing, with the mutex, the condition
variable and the broadcast channels explicit; `Retries` shows that a worker's job there is the class's
retry loop, call by call, and `DoneOrder` and `HandlerOrder` exactly when that loop keeps the order of a
batch. `Chain` puts four nodes in a row; a worker that delivers is
one of the goroutines putting into the next node and does nothing else meanwhile. `ChainOrder` proves
that every step keeps the chain's invariants, `ChainTheorems` draws order, accounting and scheduling
from them for every reachable state, and `NodeMeasure` and `ChainProgress` prove that the chain never
deadlocks under backpressure, always comes to rest, and then has settled every message.

**Topology.** `Topology` is the orchestration layer: wiring with its refusals, hops, the bot's own
wiring, and the splitting of a batch by workflow. `Dedup` is the ten-minute filter at the entrance.

**The prompt window.** `RingCache` proves the ring buffer against an append-only list. `ChatLog` is the
log text with its reply_id resolution and the token estimate. `ChatWindow` is the choice between
extending and restarting the window, `WindowLimit` how far a window can pass the token limit, exactly, in
both cases, and `PrefixCache` that over whole runs the prefix counted as cached is the prefix that was
sent, and exactly when that can fail.

**Smaller protocols.** `Lease` (claims on backfill jobs), `Sessions` (dialling against closing),
`ToolNames` with `Sorting` and `Decimals` (stable tool names), `Throttle` (unprompted replies),
`Debounce` (the backfill worker), `Unescape` (the log unescaper), `Delivery` (the send ledger) and
`Trie` (the command table).

`Items`, `Options`, `Clocks`, `Sets`, `Sums` and `Subsequences` are shared vocabulary.

## How to read it

Protocols are state machines: an `Action` datatype, a guard and an effect per action, an invariant, and
a lemma that every step keeps it; runs are sequences of actions, so a theorem about the state after a run
holds for every interleaving. Code that changes fields in place is a class whose methods are proved
against functions of the old state; the theorems are about those functions. External behaviour is a
parameter: what a handler answers, how a send ends, what time it is, which sleeping worker a signal wakes.

Where the code does less than its comments say, the model follows the code:

- A lease is stamped with the start of the tick, not with the moment of the claim, so the time a job has
  is counted from there, to the whole second (`Lease.LeaseSafety`, `Lease.LateMeansTwice`).
- A process that dies on a job's last attempt leaves the row running for ever, although running rows are
  said to be reclaimed. That happens (`Lease.StrandingHappens`), is for ever (`Lease.StrandedForEver`), and
  a crashed job can be taken up again exactly if it has an attempt left (`Lease.ReclaimedExactly`).
- The truncation of a reset window subtracts rounded-up counts and can stop above the limit: after k
  drops by 3(k+1)/4 tokens, rounded down, at most (`WindowLimit.ResetBound`), and by that much for every k
  (`WindowLimit.ResetOvershoots`).
- The extend check does not count reply_id fields that appear only when both parts are sent together. The
  window costs no more than was weighed exactly if there is no such field (`WindowLimit.ExtendBound`,
  `WindowLimit.ExtendOvershootsExactly`).
- When an ID is accepted a second time, both ends of the last window may be found in the cache although
  they had left it; the part between them then need not be what was sent. `PrefixCache.PrefixBoundary`
  says exactly after how many later messages, and `PrefixCache.SameMessagesBoundary` if a repeated ID always
  brings the same message; without repeated IDs it never happens (`PrefixCache.PrefixCacheCorrect`).
- Every delivery clears the streak of unprompted replies before it is counted. The limit on replies in a
  row has an effect, and is kept, exactly if it is at most one (`Throttle.StreakBitesExactly`,
  `Throttle.StreakLimitKept`).
- The search for a numbered tool name never ends when the name and all of the finitely many names it can
  come up with are taken (`ToolNames.SearchEndsExactly`), and with it the rebuild of the tool list, exactly
  when some entry gets into that position (`ToolNames.RebuildHangsExactly`); two tools wanting the same long
  name are enough (`ToolNames.LongClashHangs`), and not needed (`ToolNames.ThreeToolsHang`).
- Items keep their order through retries only because what fails is a body that does not decode, which
  fails every time (`HandlerOrder.DomainsKeepOrder`). A handler keeps the order of every batch exactly if all
  that gets through does so at the same attempt (`HandlerOrder.HandlersThatKeepOrder`); one passing failure
  is too much (`Consumers.PassingFailureReorders`).
- An item put under the empty key is queued where no Submit will announce it
  (`Consumers.EmptyKeyIsStranded`); it never reaches a node (`ChainTheorems.KeysGiven`).
- Two rebuilds of the command table are said to give the same result. If two command names share a keyword,
  the order of a map decides which one wins (`Trie.RebuildDetermined`), and it decides the order in which
  commands are listed (`Trie.ListDetermined`).

## Model

| member | source | states |
|---|---|---|
| `Items.Normalize` | pipeline/buffer.go:97-100 | whatever the key, the key a queue is filed under is not empty |
| `Buffers.EnqueueKeeps` | pipeline/buffer.go:107-114 | accepting an item keeps total equal to the sum of the queue lengths and both caps, and lengthens no other queue |
| `Buffers.TakeKeeps` | pipeline/buffer.go:171-194 | taking removes a prefix of one queue, leaves every other queue alone, and lowers the total by exactly what was taken |
| `Buffers.RoomOnlyFromTakes` | pipeline/buffer.go:107-126 | accepting other items never makes room for a key that had none; only a take does |
| `Buffers.FullMeansWork` | pipeline/buffer.go:107-109 | whenever an item is refused for lack of room, some queue holds an item |
| `Buffers.MemoryBuffer.constructor` | pipeline/buffer.go:79-94 | a missing per-key cap becomes one, a missing global cap becomes the per-key cap, and the buffer starts empty |
| `Buffers.MemoryBuffer.PutRound` | pipeline/buffer.go:97-126 | one round of Put: refused after Close, accepted behind its own queue when both caps allow, otherwise told which channel to wait on, with nothing changed |
| `Buffers.MemoryBuffer.TakeReady` | pipeline/buffer.go:171-194 | hands out the front of one queue, at least one item if there is one, and wakes the waiters exactly then |
| `Buffers.MemoryBuffer.TakeRound` | pipeline/buffer.go:130-167 | what is queued is handed out even after Close; a closed empty buffer reports it is drained |
| `Buffers.MemoryBuffer.Close` | pipeline/buffer.go:200-208 | closing refuses later items and keeps what is queued |
| `Buffers.MemoryBuffer.Len` | pipeline/buffer.go:211-218 | the length of the queue a key is filed under |
| `Consumers.SubmittedKeeps` | pipeline/consumer.go:142-170 | after a submission before Close the key waits or is being served, is listed once, and the waiting list grows by at most one |
| `Consumers.PoppedKeeps` | pipeline/consumer.go:197-211 | in a well-formed scheduler the head of the waiting list is never stale or busy: it gets a worker exactly when it has work |
| `Consumers.ReleasedKeeps` | pipeline/consumer.go:275-287 | giving a key back with work left before Close puts it in the waiting list, and the scheduler stays well formed |
| `Consumers.EmptyKeyIsStranded` | pipeline/consumer.go:142-145 | an item put under the empty key is queued under the fallback key while submitting the empty key tells nobody |
| `Consumers.TakeInTwoSteps` | pipeline/consumer.go:252-271 | taking one item and then the rest of a batch is taking the batch, if nothing comes between |
| `Consumers.ProcessAccounts` | pipeline/consumer.go:305-326 | every message of a batch is handled between once and retries+1 times per occurrence, is dead-lettered no more often than it occurs, and not before every attempt is used unless cancelled |
| `Consumers.PassingFailureReorders` | pipeline/consumer.go:305-326 | a concrete batch: an item that fails once and then succeeds is done after the item behind it |
| `Consumers.Consumer.Start` | pipeline/consumer.go:174-183 | the pool grows to the target and never shrinks, and has at least one worker |
| `Consumers.Consumer.Submit` | pipeline/consumer.go:142-162 | keeps the scheduler well formed; signals exactly for a real key nobody serves, before Close |
| `Consumers.Consumer.PopHead` | pipeline/consumer.go:197-211 | one turn of the scan: the head leaves the list and is in flight afterwards exactly if it has work |
| `Consumers.Consumer.NextRound` | pipeline/consumer.go:188-215 | serves the first waiting key that has work, dropping only keys without any; parks only when no waiting key has work; leaves only at shutdown |
| `Consumers.Consumer.Release` | pipeline/consumer.go:275-290 | the key is no longer in flight and goes to the end of the line if it still has work, before Close |
| `Consumers.Consumer.TakeBatch` | pipeline/consumer.go:252-271 | what is taken followed by what stays is the queue before; other queues do not change |
| `Consumers.Consumer.RetryAll` | pipeline/consumer.go:319-324 | one retry round hands over each failed item alone, in order, with one more attempt counted |
| `Consumers.Consumer.Process` | pipeline/consumer.go:305-326 | the loop makes exactly the calls and leaves exactly the dead letters of the specified rounds, whose counts ProcessAccounts bounds |
| `Retries.JobStepsAreSteps` | pipeline/consumer.go:305-326 | the job a worker works off advances by the protocol's own steps, dead letters included |
| `Retries.JobIsProcess` | pipeline/consumer.go:305-326 | left to itself a worker of the node protocol makes, for every batch, exactly the calls of the retry loop and dead-letters the same items |
| `Retries.JobAccounts` | pipeline/consumer.go:305-326 | so the bounds on calls and dead letters hold of the protocol's workers |
| `DoneOrder.RoundsArePart` | pipeline/consumer.go:305-326 | every round of a batch does a part of it in its order, and no message is done in two rounds |
| `DoneOrder.OrderKeptExactly` | pipeline/consumer.go:305-326 | for every batch of distinct messages, every number of retries, every handler and wherever it is cut short: the messages are done in their order exactly if none is done in a later round than one behind it |
| `HandlerOrder.RoundsMean` | pipeline/consumer.go:305-326 | a message is done in round k exactly if the handler lets it through at its attempt k and not before |
| `HandlerOrder.AnswersExist` | pipeline/consumer.go:305-326 | every handler, described by what it does with an item at an attempt, has a run of the retry loop |
| `HandlerOrder.HandlersThatKeepOrder` | pipeline/consumer.go:305-326 | a handler has every batch done in its order exactly if any two messages that get through do so at the same attempt |
| `HandlerOrder.DomainsReport` | bot/domains.go:28-215 | what a domain reports as failed is, in order, the items whose body does not decode, and nothing in the command domain |
| `HandlerOrder.DomainsKeepOrder` | bot/domains.go:28-215 | since that is so at every attempt, every domain has every batch done in its order, cancelled or not |
| `NodeProtocol.InitInv` | pipeline/consumer.go:131-139 | a node just started satisfies every invariant |
| `NodeProtocol.AcceptStep` | pipeline/buffer.go:97-115 | accepting an item keeps the node's invariants: the key's Submit is still to come, so the item is not forgotten |
| `NodeProtocol.AcquireStep` | pipeline/consumer.go:188-196 | a worker that takes the lock, or leaves at shutdown, keeps the invariants |
| `NodeProtocol.SleepStep` | pipeline/consumer.go:212-213 | a worker may go to sleep after an empty scan without losing a wakeup |
| `NodeProtocol.SubmitStep` | pipeline/consumer.go:142-162 | Submit with its one signal keeps every invariant, whichever sleeping worker is woken |
| `NodeProtocol.SignalKeepsAwake` | pipeline/consumer.go:158-160 | one more ready key and one more worker woken: while anybody sleeps there are enough awake |
| `NodeProtocol.ServeStep` | pipeline/consumer.go:197-211 | a worker that wins a key becomes its only holder, and no queued item is forgotten |
| `NodeProtocol.DropStep` | pipeline/consumer.go:197-208 | dropping a waiting key that has no work forgets nothing |
| `NodeProtocol.WorkerStep` | pipeline/consumer.go:234-271 | taking a batch in two takes, calling the handler, delivering and retrying keep the invariants while others put and submit |
| `NodeProtocol.ReleaseStep` | pipeline/consumer.go:275-287 | giving a key back, with its look at the queue and its signal, keeps the invariants |
| `NodeProtocol.CloseStep` | pipeline/consumer.go:355-360 | Close wakes everybody: nobody sleeps or scans afterwards |
| `NodeProtocol.CloseBufferStep` | pipeline/buffer.go:200-208 | closing the buffer keeps the invariants |
| `NodeProtocol.Step` | pipeline/consumer.go:131-326 | every atomic step of any goroutine keeps all invariants of a node: one holder per key, no forgotten key, no lost wakeup, blocked means full, per-key FIFO |
| `Chain.SortShape` | bot/domains.go:28-157 | only what does not decode is reported as failed, what is handed on keeps its key, and the agent hands nothing on |
| `Chain.HandedOnIsNew` | pipeline/contracts.go:44-67 | what a domain hands on is, message by message, what making a new item for the next node gives: the check for a node and a key never fails there |
| `Chain.SortOrder` | bot/domains.go:28-157 | a domain hands messages on in the order of its batch, leaving some out |
| `Chain.SortCounts` | bot/domains.go:28-157 | every message of a batch is handed on, finished, dropped or failed, exactly one of them |
| `ChainOrder.SettledStays` | pipeline/consumer.go:305-326 | a step that neither records a first call nor a dead letter keeps the books of what became of each message |
| `ChainOrder.DealSettles` | bot/orchestrator.go:164-186 | after a handler call the books are right again: what the node was handed it handed on, ended, dropped, dead-lettered or is retrying |
| `ChainOrder.OfferKeepsLink` | bot/orchestrator.go:348-373 | when a worker starts delivering a message, what was handed on still is, in order, what the next node accepted and what is on its way |
| `ChainOrder.SeenAbove` | pipeline/buffer.go:97-126 | every step of the receiving node keeps that account, whether it accepts the message, blocks it or refuses it after Close |
| `ChainOrder.FreshStep` | bot/orchestrator.go:383-390 | no message is accepted twice by the first node |
| `ChainOrder.LocalInv` | pipeline/consumer.go:131-326 | any local step of any node keeps the invariants of the whole chain |
| `ChainOrder.DealInv` | bot/orchestrator.go:135-186 | any handler call keeps the invariants of the whole chain |
| `ChainOrder.OfferInv` | bot/orchestrator.go:348-373 | any delivery keeps the invariants of the whole chain |
| `ChainOrder.AdmitInv` | bot/orchestrator.go:383-419 | admitting a new message keeps the invariants of the whole chain |
| `ChainOrder.NextInv` | bot/orchestrator.go:135-202 | every step of the chain, in any interleaving, keeps all its invariants |
| `ChainTheorems.ReachableInv` | bot/handler.go:117-132 | every state the wired chain can reach satisfies every invariant of its nodes and links |
| `ChainTheorems.SchedulerSafe` | pipeline/consumer.go:142-214 | in every reachable state: ready is duplicate-free, equals readySet, is disjoint from inflight; one worker at most holds a key; before Close a key with queued items is ready, in flight, or about to be submitted |
| `ChainTheorems.CapsHold` | pipeline/buffer.go:97-114 | in every reachable state no queue is over its cap and the total is the sum of the queues and not over the global cap |
| `ChainTheorems.WakeupsSuffice` | pipeline/consumer.go:158-214 | in every reachable state in which a worker sleeps and nobody holds the scheduler's lock, there are at least as many workers signalled and not yet running as ready keys |
| `ChainTheorems.WaitersHaveNoRoom` | pipeline/buffer.go:115-126 | in every reachable state a goroutine waiting on the current space channel has no room for its item |
| `ChainTheorems.KeysGiven` | pipeline/contracts.go:44-67 | in every reachable state every item has a key and is under it: on its way into a buffer, queued, in a worker's hands and about to be delivered; so the empty key, which no Submit would announce, never reaches a node |
| `ChainTheorems.NodeFifo` | pipeline/buffer.go:107-194 | per node and key: first calls concatenated, then what is in hand, then what is queued, are exactly the items put, in order |
| `ChainTheorems.PutFollowsHanded` | bot/orchestrator.go:295-305 | what a node accepts is, in order, part of what the node before it was handed |
| `ChainTheorems.InAdmissionOrder` | bot/orchestrator.go:135-202 | per key every node is handed messages in admission order |
| `ChainTheorems.AgentInAdmissionOrder` | bot/domains.go:194-209 | in every reachable state the agent has been handed a key's messages in admission order, each message visits sync, command, assets and agent at most once, and no later node without the earlier ones |
| `ChainTheorems.NodeAccounts` | pipeline/consumer.go:234-326 | at one node, what was put is exactly what is queued, in hand, failing, settled or handed on |
| `ChainTheorems.LinkAccounts` | bot/orchestrator.go:348-373 | between two nodes, what was handed on is exactly what was accepted, is on its way, or was refused |
| `ChainTheorems.ExactlyOnePlace` | bot/orchestrator.go:348-373 | in every reachable state each admitted message is in exactly one place of its own key, in none of any other key, and nothing else is anywhere |
| `NodeMeasure.StepUses` | pipeline/consumer.go:142-326 | every step a running node takes by itself uses up positions, then retries, then bookkeeping, and never adds a message |
| `NodeMeasure.HandledUses` | pipeline/consumer.go:305-326 | a handler call uses something up, however many items it reports as failed |
| `ChainProgress.HolderMoves` | bot/orchestrator.go:348-373 | a worker holding a key can go on, or whoever it is blocked behind further down can |
| `ChainProgress.ReadyIsServed` | pipeline/consumer.go:188-215 | a ready key means somebody can take a step: not every worker is asleep |
| `ChainProgress.QueueMoves` | pipeline/consumer.go:142-287 | a queued item means somebody can take a step |
| `ChainProgress.PutCanMove` | pipeline/buffer.go:97-126 | a goroutine putting an item can go on, or the node it is blocked on can |
| `ChainProgress.NoDeadlock` | bot/handler.go:117-132 | no deadlock under backpressure: in every reachable state before shutdown with a message queued, being put or in hand, the bot can take a step |
| `ChainProgress.MovesLighten` | pipeline/consumer.go:142-326 | every step the bot takes by itself lowers a well-founded measure of the whole chain |
| `ChainProgress.WorkEnds` | pipeline/consumer.go:305-326 | left to itself, under any scheduling and any handler answers, the bot comes to rest after finitely many steps |
| `ChainProgress.UndisturbedLosesNothing` | bot/orchestrator.go:348-373 | without shutdown and without callers giving up, no delivery is refused |
| `ChainProgress.EveryMessageEnds` | bot/domains.go:28-209 | once an undisturbed run is at rest, every admitted message has been finished, filtered or dead-lettered at exactly one node, and nothing else has |
| `Topology.WiringKeepsValid` | bot/orchestrator.go:206-282 | no accepted wiring operation leaves an entry or a target unmounted, or an event that both ends and goes on |
| `Topology.HopsAreStable` | bot/orchestrator.go:251-282 | where an event leads is never changed by later wiring, and wiring one event of one workflow changes no other |
| `Topology.HopsAreMounted` | bot/orchestrator.go:295-332 | every event ends by declaration, goes to a mounted domain, or is dropped |
| `Topology.Orchestrator.Mount` | bot/orchestrator.go:206-212 | refused exactly for a name already mounted |
| `Topology.Orchestrator.MountRouter` | bot/orchestrator.go:218-224 | refused exactly when there is a front node already |
| `Topology.Orchestrator.Declare` | bot/orchestrator.go:230-244 | refused exactly without a name, without a mounted entry, or twice |
| `Topology.Orchestrator.Connect` | bot/orchestrator.go:251-267 | refused exactly for an unknown workflow, an event that ends, an event led elsewhere, or an unmounted target |
| `Topology.Orchestrator.Exit` | bot/orchestrator.go:273-283 | refused exactly for an unknown workflow or an event that goes on |
| `Topology.Orchestrator.Enter` | bot/orchestrator.go:308-314 | a known workflow always has a mounted entry |
| `Topology.Orchestrator.IsEnd` | bot/orchestrator.go:329-332 | true exactly for declared ends |
| `Topology.Orchestrator.Advance` | bot/orchestrator.go:320-326 | for an event that does not end, the answer is the declared target, and an empty answer means nobody declared where it goes |
| `Topology.NewBot` | bot/handler.go:112-132 | the bot's own wiring is accepted and is the chain command, assets, agent, with two ends and no other hop |
| `Topology.Orchestrator.Dispatch` | bot/orchestrator.go:295-305 | the loop over a call's signals makes exactly the items the workflow has a way on for |
| `Topology.Orchestrator.Consume` | bot/orchestrator.go:164-202 | the fast and the slow path make exactly the calls, return exactly the failures, and send on exactly the signals of the grouping by tag, each group's under its own tag |
| `Topology.SendsFollowTheWiring` | bot/orchestrator.go:295-373 | whatever is reported under a tag goes to a mounted domain along a hop of that workflow, with that tag, a key and no attempts yet; nothing that has a way on is lost or reordered |
| `Topology.SentUnderOwnTags` | bot/orchestrator.go:196-200 | a batch sends nothing under a tag that none of its items carries |
| `Topology.Group` | bot/orchestrator.go:187-195 | groups and their order are by first appearance of the tag |
| `Topology.TagsOnce` | bot/orchestrator.go:187-195 | every tag of a batch is listed once |
| `Topology.EachHandledOnce` | bot/orchestrator.go:164-202 | every item of a batch is handled in exactly one call, the one for its own workflow |
| `Topology.OrderKept` | bot/orchestrator.go:187-195 | within a workflow the order of the batch is kept |
| `Dedup.MessageDedup.Claim` | bot/handler.go:61-80 | a claim is granted exactly if the ID is empty, unknown, or was claimed at least ten minutes ago; sweeping drops only expired entries |
| `Dedup.MessageDedup.Forget` | bot/handler.go:83-90 | a claim taken back is gone |
| `Dedup.OthersKeep` | bot/handler.go:61-90 | what concerns other IDs, and refused claims, leave a live entry alone |
| `Dedup.SeenIsLastGrant` | bot/handler.go:61-90 | over whole runs the table holds, for an ID, the time of its last granted claim, and loses it only after ten minutes |
| `Dedup.OncePerWindow` | bot/handler.go:61-90 | two granted claims of one ID with no taking back between are at least ten minutes apart |
| `Dedup.LetInAgain` | bot/handler.go:61-90 | once the window is over the ID is let in again |
| `RingCache.OfferedStaysDistinct` | conversation/cache.go:151-176 | the list the ring stands for never holds an ID twice, nor more than N messages |
| `RingCache.GroupMsgCache.constructor` | conversation/cache.go:127-140 | a new cache of any size holds nothing |
| `RingCache.GroupMsgCache.Add` | conversation/cache.go:151-176 | the ring refines: append unless the ID is held, then keep the last N; seenSet stays exactly the held non-empty IDs |
| `RingCache.GroupMsgCache.SetNickname` | conversation/cache.go:183-194 | fills in a missing nickname for every held message of the user and changes nothing else |
| `RingCache.GroupMsgCache.GetAll` | conversation/cache.go:197-214 | the held messages, oldest first |
| `RingCache.GroupMsgCache.Len` | conversation/cache.go:289-296 | their number |
| `RingCache.GroupMsgCache.HasSeen` | conversation/cache.go:260-268 | true exactly if a held message has this non-empty ID |
| `RingCache.GroupMsgCache.Stats` | conversation/cache.go:228-255 | the backward modular scan gives the newest time and account of the held list |
| `RingCache.SlotFromEnd` | conversation/cache.go:238-240 | the modular index meets the held messages from the newest to the oldest, wrapped or not |
| `RingCache.WriteOne` | conversation/cache.go:161-175 | overwriting one slot and moving the write position is appending and dropping the oldest, with the set of IDs kept in step |
| `RingCache.HeldIsTailOfLog` | conversation/cache.go:151-194 | over any run the cache holds the last N of everything it ever accepted |
| `RingCache.LogOnlyGrows` | conversation/cache.go:151-176 | while no nickname is learnt, what was accepted stays as it was |
| `ChatLog.EstimateTokens` | conversation/token.go:6-17 | the loop counts wide characters one each and the others four to a token, rounded up |
| `ChatLog.TokensAppend` | conversation/token.go:6-17 | estimating two pieces apart is never less than together, and at most one token more |
| `ChatLog.BuildChatLog` | conversation/cache.go:325-360 | the two loops build exactly the specified log |
| `ChatLog.RowsMean` | conversation/cache.go:327-335 | an ID resolves exactly if a message with text, ID and row has it, to the row of the last such message |
| `ChatLog.PrefixKept` | conversation/cache.go:325-360 | if no old message quotes a new one, the old log is byte for byte a prefix of the extended log |
| `ChatLog.LogSplits` | conversation/cache.go:325-360 | exactly: the log of two parts is the two logs plus the reply_id fields that point from one part into the other, all of them ASCII |
| `ChatLog.SplitExactly` | conversation/token.go:6-17 | weighing two parts apart gives at least the cost of both together exactly if no reply_id field crosses between them: one field outweighs both roundings |
| `ChatWindow.IndexOfFinds` | conversation/cache.go:378-385 | the position found is the first with the ID, and none is found only if there is none |
| `ChatWindow.FindMsgIndex` | conversation/cache.go:378-385 | the search loop finds that position |
| `ChatWindow.UpToNewest` | speech/chat_window.go:22-32 | the cut ends at the newest message with the trigger's ID |
| `ChatWindow.CutAtMessage` | speech/chat_window.go:22-32 | the backward loop makes that cut, and cuts nothing if the trigger is gone |
| `ChatWindow.DecideChatWindow` | speech/chat_window.go:43-88 | the decision record, in every field, is the specified one, for every anchor, price and limit |
| `ChatWindow.TrimToLimit` | speech/chat_window.go:73-86 | the truncation loop drops what the specification drops, and reports the tokens of what is left |
| `ChatWindow.WindowIsSuffix` | speech/chat_window.go:67-82 | what is sent is a run of messages up to the newest, and not empty for a non-empty input when at least one message may be sent |
| `WindowLimit.TrimStops` | speech/chat_window.go:79-82 | the truncation stops at the first count that brings its own total within the limit, or at one message |
| `WindowLimit.DriftPerDrop` | speech/chat_window.go:79-82 | after k drops the running total is at most 3(k+1)/4 tokens, rounded down, below what is left |
| `WindowLimit.ResetBound` | speech/chat_window.go:71-86 | a reset window that dropped k messages and stopped on the token test passes the limit by at most 3(k+1)/4 tokens, rounded down; one that dropped nothing is within it |
| `WindowLimit.ResetOvershoots` | speech/chat_window.go:79-83 | the bound is met for every k, by messages with distinct IDs and the line JSON gives a nameless message: five are left, 3(k+1)/4 tokens over the limit |
| `WindowLimit.ExtendBound` | speech/chat_window.go:48-67 | an extended window was cheaper, costs no more than was weighed exactly if no reply_id field crosses between the sent part and the new part, and otherwise more by no more than those fields |
| `WindowLimit.ExtendOvershootsExactly` | speech/chat_window.go:54-66 | where extending is cheaper, some limit lets an oversized window through exactly if a reply_id field crosses |
| `WindowLimit.ExtendOvershoots` | speech/chat_window.go:54-66 | for every way of writing lines, one answer to the last message sent takes an extended window over some limit that the check accepts |
| `PrefixCache.PrefixCacheCorrect` | speech/generate.go:137-146 | over whole runs: if no ID was accepted twice, both ends of the last window are found and the next decision extends, the log sent last time begins the next one byte for byte and is exactly what was counted as a hit |
| `PrefixCache.WholeIsServed` | speech/chat_window.go:48-67 | the same, whatever IDs come twice, while the last window has not begun to leave the cache |
| `PrefixCache.LogIsApart` | conversation/cache.go:151-176 | over any run, two messages accepted under one ID lie more than the size of the cache apart |
| `PrefixCache.JustGoneIsServed` | speech/chat_window.go:48-67 | with the first or the last message of the window just out of the cache, its ID cannot be back, and the prefix is never missed |
| `PrefixCache.PrefixBoundary` | speech/chat_window.go:48-67 | when IDs may come twice, for every cache size, window length and number of messages gone: the prefix is served in every run exactly if nothing of the window has left the cache, or exactly one message, or exactly all of them; so are its bytes, where lines tell texts apart |
| `PrefixCache.SameMessagesBoundary` | speech/chat_window.go:48-67 | the same, of messages and of bytes alike, when an ID accepted again always brings the same message: then a window of one message is always served too, and a window of two with exactly three messages gone from its start on; every other case can fail |
| `Lease.JobStore.ClaimAssetTagJob` | state/jobs.go:103-122 | granted exactly if the row meets the condition of the update; the row is then running with one more attempt and the tick's time, and the same claim would not be granted again |
| `Lease.JobStore.UpdateAssetTagJob` | state/jobs.go:128-140 | writes the status and time of an existing row and never its attempts |
| `Lease.JobStore.CleanupAssetTagJobs` | state/jobs.go:144-152 | removes exactly the expired finished rows and reports how many |
| `Lease.LiveLeaseIsSafe` | state/jobs.go:103-122 | while the lease of its holder's tick has not run out, no other tick's claim can take a job, whole-second truncation included |
| `Lease.InTimeIsOnTime` | assets/jobs.go:95-113 | a job ended within ClaimTimeout of the start of its tick is on time |
| `Lease.StepKeeps` | assets/jobs.go:95-173 | every step of every process keeps leases exclusive and attempts equal to claims |
| `Lease.LeaseSafety` | assets/jobs.go:95-128 | after any interleaving of claims, crashes, write-backs, clean-ups and time with every job ended in time, no two processes are on one job and each row has been claimed exactly as often as it says, at most MaxAttempts times |
| `Lease.FinalIsFinal` | state/jobs.go:103-140 | a job done or missing is on nobody's hands, is never claimed and never rewritten; only clean-up removes it |
| `Lease.CleanKeepsUnfinished` | state/jobs.go:144-152 | clean-up never touches unfinished work |
| `Lease.LateMeansTwice` | assets/jobs.go:95-113 | the deadline is exact: as soon as a held lease has run out, an idle process can end up on the same job without any time passing |
| `Lease.ReachJob` | state/jobs.go:86-122 | ticks list the rows that have waited longest, up to the batch; an idle process gets past them to any claimable job |
| `Lease.LastCrashStrands` | state/jobs.go:86-152 | no step of anybody touches a running row that nobody works on and that has no attempt left |
| `Lease.StrandedForEver` | state/jobs.go:86-152 | and so it stays over every run |
| `Lease.StrandingHappens` | assets/jobs.go:95-128 | from an empty table some run, on time throughout, ends with such a row, for every MaxAttempts |
| `Lease.ReclaimedExactly` | state/jobs.go:86-122 | a running row that nobody works on can be taken up again by an idle process exactly if it has an attempt left |
| `Sessions.StepKeeps` | mcpclient/manager.go:445-609 | every step of dialling, marking dead and closing, each at its own pace, keeps every session owned |
| `Sessions.EverySessionOwned` | mcpclient/manager.go:470-598 | in every reachable state a session is open and held by exactly one of its server, its dialler, one goroutine marking it dead and the closer, or closed exactly once and held by nobody |
| `Sessions.NothingLeftOpen` | mcpclient/manager.go:445-508 | once Close and all dials in flight have ended nothing is attached and every session opened has been closed, once |
| `Sessions.GateHolds` | mcpclient/manager.go:445-486 | a server the sweep has passed never gets a session again, although the gate is not checked and set under one lock |
| `Sessions.ServerConn.Detach` | mcpclient/manager.go:445-459 | taking the session under the lock is the protocol's step of marking dead and of sweeping: the slot stays what the protocol says is attached, and the taker has what the protocol gives it |
| `Sessions.ServerConn.Publish` | mcpclient/manager.go:480-497 | the end of a dial is the protocol's commit past an open gate, and past a closed one leaves the dialler with exactly the session the protocol says it must close |
| `ToolNames.SanitizeToolName` | mcpclient/tool.go:114-133 | the loop and the trims compute the specified name |
| `ToolNames.SanitizeCleans` | mcpclient/tool.go:114-133 | every sanitized name has 1 to 64 letters, digits, underscores or hyphens, and none of the last two at its ends |
| `ToolNames.SanitizeTwice` | mcpclient/tool.go:114-133 | sanitizing twice is sanitizing once |
| `ToolNames.SuffixFits` | mcpclient/manager.go:691-694 | a number that fits within 64 characters is kept, so candidates differ |
| `ToolNames.SuffixSwallowed` | mcpclient/manager.go:691-694 | a name of 63 or 64 characters swallows every number |
| `ToolNames.RoomMeansFree` | mcpclient/manager.go:691-699 | if the numbered names fit, one of the first as many candidates as there are names is free, so the search ends |
| `ToolNames.FullNeverEnds` | mcpclient/manager.go:691-699 | with no room the search ends exactly when there was no clash |
| `ToolNames.CandidateIs` | mcpclient/tool.go:114-136 | where the whole number does not fit, the candidate is the name with the number's leading digits |
| `ToolNames.SearchEndsExactly` | mcpclient/manager.go:691-699 | for every name and whatever is taken: the search ends unless there is a clash and every one of the finitely many names it can come up with is taken |
| `ToolNames.ChoicesSize` | mcpclient/manager.go:691-699 | how many names those are: none from 63 characters on, nine for 62, and otherwise ten to the number of free places, less two |
| `ToolNames.FewTakenExactly` | mcpclient/manager.go:691-699 | the search ends whatever k names are taken exactly if k is no more than that |
| `ToolNames.SmallSearchEnds` | mcpclient/manager.go:691-699 | while no more than nine names are taken the search ends exactly if there is no clash or the name has at most 62 characters |
| `ToolNames.FreeName` | mcpclient/manager.go:688-700 | whenever some candidate is free the search ends, with the first free one |
| `ToolNames.RoomyNamesComplete` | mcpclient/manager.go:681-707 | if every wanted name leaves room for a number as large as the list, the snapshot is completed |
| `ToolNames.RebuildHangsExactly` | mcpclient/manager.go:682-705 | the rebuild never ends exactly if some entry that is reached finds its name and all names the search can come up with taken by the entries before it |
| `ToolNames.ThreeToolsHang` | mcpclient/manager.go:682-705 | three tools of two servers, no two wanting the same long name, for which the rebuild never ends: the second is given the name that the third wants |
| `ToolNames.LongClashHangs` | mcpclient/manager.go:681-707 | two entries wanting the same name of 63 or 64 characters: the rebuild never ends |
| `ToolNames.Collect` | mcpclient/manager.go:643-667 | exactly the named tools of injected servers that are online are collected, and the tally counts who wants each name |
| `ToolNames.CollectedAll` | mcpclient/manager.go:643-667 | each such tool is collected |
| `ToolNames.NameEntry` | mcpclient/manager.go:681-700 | a tool gets its own name, its server's name in front if the name is wanted twice, a number if it is still taken |
| `ToolNames.RebuildSnapshot` | mcpclient/manager.go:627-711 | the published tools and bindings are those of the specified naming, each name bound to its own tool |
| `ToolNames.NamesDistinct` | mcpclient/manager.go:681-707 | names are pairwise different and acceptable |
| `ToolNames.SnapshotComplete` | mcpclient/manager.go:627-711 | no tool on offer is lost or doubled, and names are distinct and acceptable |
| `ToolNames.CollectedForgetsOrder` | mcpclient/manager.go:637-667 | servers in another order offer the same tools |
| `ToolNames.CollectedForgetsListing` | mcpclient/manager.go:637-667 | servers that list their tools in another order offer the same tools |
| `ToolNames.SnapshotForgetsOrder` | mcpclient/manager.go:669-678 | with (server, tool) pairs unique, servers in any order, each listing its tools in any order, give the same names to the same tools |
| `Sorting.SortKeeps` | mcpclient/manager.go:672-677 | the stable sort rearranges and ascends |
| `Sorting.SortForgetsOrder` | mcpclient/tool.go:153-155 | with unique keys the result does not depend on the order of the input |
| `Throttle.ProactiveRegistry.Enqueue` | speech/proactive.go:120-153 | starts a worker exactly if none runs and all three limits allow; a running worker's slot is overwritten |
| `Throttle.ProactiveRegistry.Next` | speech/proactive.go:158-181 | empties the slot; the worker leaves only when it was empty, drops the candidate when a limit forbids, and otherwise marks the start of a judgement |
| `Throttle.ProactiveRegistry.RecordReply` | speech/proactive.go:186-193 | starts the cooldown and counts one more |
| `Throttle.ProactiveRegistry.NoteDirect` | speech/proactive.go:197-204 | starts the cooldown and clears the count |
| `Throttle.ProactiveRegistry.Abandon` | speech/proactive.go:207-214 | no worker and no candidate remain |
| `Throttle.ThrottleSafe` | speech/proactive.go:120-218 | over any interleaving on a clock that does not go back: one worker per group, judgements at least JudgeEvery apart and at least Cooldown after every earlier reply, the streak never above its limit |
| `Throttle.StreakNeverBlocks` | speech/deliver.go:245-247 | since every delivery clears the streak before it is counted, a streak limit of two or more never stops anybody |
| `Throttle.StreakBitesExactly` | speech/proactive.go:120-153 | some reachable state has the streak alone forbidding a judgement exactly if the limit is at most one |
| `Throttle.RepliesInARow` | speech/proactive.go:186-204 | with a limit of two or more, any number of unprompted replies follow one another without a direct reply or a long silence between them |
| `Throttle.StreakLimitKept` | speech/proactive.go:186-204 | no run passes the limit on unprompted replies in a row exactly if the limit is at most one |
| `Throttle.NothingLeftBehind` | speech/proactive.go:158-173 | a worker leaves through next only with an empty slot, and what it takes is the newest candidate |
| `Debounce.Workspace.Schedule` | workspace/mention.go:30-47 | starts a goroutine exactly if the group has none, otherwise asks it to go round again; other groups are untouched |
| `Debounce.Workspace.ClearAgain` | workspace/mention.go:55-57 | forgets earlier requests of this group only |
| `Debounce.Workspace.EndPass` | workspace/mention.go:64-74 | goes on exactly if asked again and not cancelled, and is gone otherwise |
| `Debounce.NoRequestLost` | workspace/mention.go:30-77 | one goroutine per group; once it is gone every call has been followed by a pass that began after it, unless cancelled |
| `Debounce.PassComes` | workspace/mention.go:53-77 | with a call outstanding each step of the goroutine begins a pass or comes closer to one, and nobody sets it back |
| `Unescape.UnescapeHTMLForLog` | llm/llm.go:425-466 | the run-counting loop, its bound check and its early return compute the escape-by-escape reading |
| `Unescape.NothingToDo` | llm/llm.go:426-428 | returning early changes nothing |
| `Unescape.PlainRun` | llm/llm.go:437-464 | of a run of backslashes of any length only the last one of an odd run can begin an escape |
| `Unescape.MeaningKept` | llm/llm.go:420-466 | for every text the result means the same as the input under the string escapes of section 7 of RFC 8259, malformed texts included |
| `Unescape.PlainTwice` | llm/llm.go:425-466 | unescaping twice is unescaping once |
| `Delivery.SplitReplyMessages` | speech/deliver.go:186-206 | at most max chunks, none empty, all but the last of one sentence, that flatten back to the sentences |
| `Delivery.BuildReplyActions` | speech/deliver.go:314-337 | at most five actions whose texts joined are the reply, all for the same target and reference; only the first quotes, and mentions if asked; one action when there is no interval |
| `Delivery.IdsDiffer` | speech/deliver.go:323-326 | the actions of one reply have different IDs |
| `Delivery.MemoryLedger.Load` | speech/deliver.go:293-301 | what was marked last, if anything |
| `Delivery.MemoryLedger.Mark` | speech/deliver.go:303-310 | the entry replaces what was there, unless it has no ID |
| `Delivery.SendReply` | speech/deliver.go:214-250 | one attempt skips what is sent, stops at a refusal or cancellation, and leaves the ledger the specification leaves |
| `Delivery.PassAdvances` | speech/deliver.go:214-250 | one attempt lengthens the sent prefix, sends in order, and is complete exactly when all is sent |
| `Delivery.DeliverySafe` | speech/deliver.go:214-250 | over any number of attempts: sent actions are a prefix, sends are in order, only a definite refusal is ever resent, and the reply is complete exactly when every action is sent |
| `Delivery.ChatSink.DeliverChat` | speech/deliver.go:92-109 | the anchor advances exactly when an attempt completes a reply that has one; a reply without one leaves it where it is |
| `Trie.RouteTrie.constructor` | speech/command.go:127-131 | a new tree holds no keyword |
| `Trie.RouteTrie.Insert` | speech/command.go:65-74 | adds or replaces one keyword and changes no other |
| `Trie.RouteTrie.Match` | speech/command.go:77-91 | the walk finds the route of the longest non-empty keyword the text starts with |
| `Trie.StopsAt` | speech/command.go:80-84 | where a branch ends no longer keyword can match |
| `Trie.Rebuild` | speech/command.go:127-163 | a fresh tree and the list beside it, with the internal commands and then the user's in whatever order the map gives; the tree is what the list comes to, later ones replacing earlier ones with the same keyword |
| `Trie.RebuildDetermined` | speech/command.go:120-126 | rebuilding from the same prompts always gives the same table exactly if command names that share a keyword agree on its route |
| `Trie.ListKeepsItsCommands` | speech/command.go:127-163 | whatever order the map gives, the list has the same commands as often |
| `Trie.ListDetermined` | speech/command.go:120-126 | the order of the user's commands in the list is settled by the prompts exactly if the commands of any two names come to the same list either way round |
| `Trie.TreeAgreesWithSearch` | speech/command.go:65-91 | after any sequence of insertions the tree agrees with going through all commands and keeping the longest, latest match |
| `Trie.EmptyKeywordNeverMatches` | speech/command.go:77-91 | a command with an empty keyword is never matched |

## Left out

- Consumers.Consumer.TakeBatch: the class method takes its two portions with nothing in between; `NodeProtocol` has them as two steps with anything in between.
- Consumers.Consumer.NextRound: one round of the loop; going to sleep and being woken are steps of `NodeProtocol`.
- Buffers.MemoryBuffer.PutRound: one round of the loop; waiting, waking and giving up are steps of `NodeProtocol`.
- ChainProgress.WorkEnds: states that the bot comes to rest, for handlers that return; how long a handler takes is not modelled.
- PrefixCache.PrefixCacheCorrect: for cached messages with IDs and without quotes of later messages, and no nickname filled in between the two windows.
- ChatWindow.DecideChatWindow: takes `llmSendCount` and the system tokens as natural numbers, which configuration guarantees, and prices as reals.
- ChatLog.BuildChatLog: the JSON of a line up to its reply_id field is any function of its four fields; that encoding one line never fails is taken from its field types.
- RingCache.GroupMsgCache.Add: not for a cache of size zero, where the program would panic.
- Lease.LeaseSafety: one clock and one configuration for all processes, and one table; the source lets each process use its own clock.
- Lease.JobStore.ClaimAssetTagJob: the conditional update is one atomic step, as the database runs it.
- Sessions.EverySessionOwned: relies on one dialler per server at a time, which holds because the first round of dials ends before the reconnect loop starts; closing a session is one step that does not fail.
- ToolNames.RebuildSnapshot: applies when every search for a number ends; `ToolNames.RebuildHangsExactly` says exactly when one does not. Descriptions stand for everything published with a name; token counts are not part of the snapshot here.
- Throttle.ThrottleSafe: fixed configuration, and times that do not go back in the order in which the lock is taken; a panic in the synchronous path, which leaves the group marked running, is not a step.
- Debounce.PassComes: a pass is one step; its rounds and the rewriting of rows are not modelled.
- Delivery.DeliverySafe: retries of one and the same reply; a reply generated anew for the same message shares its action IDs.
- ChainOrder.AdmitInv: every admission is a message of its own; a message that a platform delivers twice is two admissions (`Dedup` is the filter in front).
- Messages are numbers and bodies either decode or do not; command, assets and agent decide by parameters which message is handed on, finished or dropped.
- Topology.Orchestrator.Dispatch: what is sent is a list of items; putting them is the protocol's, and an item without a key, which the source dead-letters, is simply not sent.
- Retries.JobIsProcess: the retry loop for one worker; deliveries between its calls are steps of `NodeProtocol`.
- DoneOrder.OrderKeptExactly: for batches in which no message occurs twice, which is what the chain hands its nodes.
- Submitting before Run, metrics and log output of the consumer.
- `orchestrator.start` (entering a workflow past the front node) and the reporting functions `backlog`, `pending`, `active` and `idle`.
- Shutdown draining: closing is possible at any step of the protocol and its safety is proved, but the order in which the bot closes its nodes is not modelled.
- Refreshing the tools of a live session, circuit breakers and tool calls.
- Falling back to other response formats when a model refuses one.
- Generation, judging and rewriting of replies by the model; images; personas.
- HTTP, chat platform, database and model clients; the web panel; configuration and its validation.
