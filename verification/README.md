# Verified model of submux

submux multiplexes Redis Cluster Pub/Sub subscriptions over a few connections. This project models its
concurrent core in Dafny and proves what it promises: ordered delivery of callbacks, connections that
are spread and shared, exact topology diffs, migrations that account for every subscription, and hash
slots that agree with the Redis Cluster Specification.

`dafny verify dfyconfig.toml` checks everything.

## Layout

| file | what it holds |
|---|---|
| Ring.dfy, Sequencer.dfy | the ring buffer and the callback sequencer as classes over an array, refined to sequences; the history invariant of a queue with overflow episodes |
| Delivery.dfy | the delivery protocol: enqueuers, drains, worker pool, `Stop` and `SubMux.Close` as one transition system, one action for each critical section, channel operation and goroutine launch |
| DeliveryInv.dfy, DeliveryTasks.dfy | its inductive invariant and the proof that every action keeps it |
| DeliveryTheorems.dfy, DeliveryLiveness.dfy, Sums.dfy | what follows for whole runs: order, token, pool, shutdown, eventual delivery |
| DeliverySignals.dfy | overflow signals, the answers of submit calls, and when a drain runs on a goroutine of its own |
| DeliveryExact.dfy, DeliveryRace.dfy | exactly what shutdown leaves behind, and a run in which it leaves something |
| Common.dfy, Seqs.dfy | what several modules share |
| Registry.dfy | the copy-on-write subscription registry of one connection |
| ConnPool.dfy, BalancedAll.dfy | the connection pool's three indexes and its choice of connection as a class; any number of concurrent selections as a transition system |
| BalancedResults.dfy | what each selection returns, for which node, and where it is listed |
| EventLoop.dfy, Confirmation.dfy | the command protocol of a connection's event loop; the confirmation of a subscription |
| Unsubscribe.dfy | unsubscribing one Sub: the global map, the commands, the registries |
| Topology.dfy, Migration.dfy, Resubscribe.dfy | topology state, enrichment, diffs and refreshes; cancel-and-replace of migration goroutines; the resubscription loop |
| HashSlot.dfy | polynomial arithmetic over GF(2), the CRC table, hash tags and slots |

Code that updates state in place is a class whose methods are tied to functions on values; protocols are
`Init`, `Enabled` and `Apply`, and a run is a sequence of enabled actions. A theorem about reachable
states quantifies over every run from every initial state.

## Where the code and its promises differ

- `Close` can return while an accepted message is undelivered. `CloseDeliversAll` rules it out for runs in which no
  enqueue is in progress at some moment before `Close` returns and none starts later. `CloseIsExact` says for each
  subscription when it happens: everything accepted has been delivered if and only if no enqueue in progress
  has yet to hand over the subscription's drain. `CloseCanOvertakeEnqueue` is a run in which one has.
- A node's list can hold a connection without metadata for ever: `IndexesAgree` says exactly which (those removed
  between creation and listing), `OrphanHappens` is such a run, `OrphanStays` shows that nothing
  removes the entry, and `OrphanStarves` that the node is no longer spread to.
- A diff cannot tell a slot that got an empty master address from one that disappeared: `ReplayDiff` gives
  the exact condition under which replaying diffs reproduces the owners, and `EmptyAddressIsLost` a diff that fails it.
- `resubscribeOnNewNode` looks at a channel's list in a second critical section after adding to it, then at its
  context, and has a goroutine send the command. `SubscribeGoesOut`: for a channel that had no listener on the new
  connection, SUBSCRIBE goes out, written for the migration or left to somebody told to send it, if and only if
  nobody else is listed at that look, the context is live after it, and the connection takes the command and
  writes it. Otherwise the channel stays without SUBSCRIBE while the moved subscription is listed.
  `NeitherSubscribes`, `LateLeavesSilence` and `FailureLeavesSilence` are interleavings in which each of the
  three conditions alone fails.
- `resetConfirmation` can run in Pending: a pending subscription whose old connection has just been marked failed, or
  has lost its metadata, is not closed before it is reset (topology.go:930-975). `ConfirmationOutcome` is for runs
  without that; in any run, by `ResetStrands`, a goroutine blocked in `waitForActive` is left behind for good if
  and only if a reset comes before the transition that would have released it, and `ResetInPending` shows that the
  sender then finds a nil although the subscription is still pending.
- A slot's list can hold a removed connection: a waiter may list it after the removal. `SlotsAgree` says exactly which
  entries these are, `StaleStays` that only invalidating the slot takes them away, and `StaleHappens` is such a run.
- `unsubscribeSubscription` decides about a channel by all of a Sub's subscriptions to it, but tells and cleans only the
  connection of the first. `CommandIsRight` gives the exact condition under which UNSUBSCRIBE goes out if and
  only if its connection is left without listeners; `CommandCanBeWrong` is a Sub that subscribed twice
  to one channel for which another listener is cut off and the second subscription stays listed.
- The signal of an overflow episode always carries the count 1 (`SignalsAreDelivered`): it is sent on the first
  drop of the episode.

## Model

| member | source | states |
|---|---|---|
| `Ring.PushWindow` | ringbuf.go:34-45 | writing at the tail appends to the window of live elements, across wraparound, and keeps every other slot zero |
| `Ring.PopWindow` | ringbuf.go:50-59 | zeroing the head slot and advancing removes exactly the first element of the window and keeps every slot outside it zero |
| `Ring.PendingCallbackRing.InitRing` | ringbuf.go:19-30 | an empty buffer of the given capacity, or a growable one of 16 slots |
| `Ring.PendingCallbackRing.Push` | ringbuf.go:34-45 | appends to the FIFO contents; refuses exactly when the ring is bounded and full; grows only when full, to twice the length |
| `Ring.PendingCallbackRing.Pop` | ringbuf.go:50-59 | returns and removes the first of the FIFO contents, or reports that there is none |
| `Ring.PendingCallbackRing.Unrolled` | ringbuf.go:67-76 | the copy made by grow holds the contents in order at the front and zeros behind |
| `Ring.PendingCallbackRing.Grow` | ringbuf.go:67-80 | keeps the FIFO contents, doubles the buffer |
| `Ring.PendingCallbackRing.GrowthBounds` | ringbuf.go:34-80 | a grown buffer stays below twice the longest queue seen, and all copying below twice the pushes |
| `Sequencer.CallbackSequencer.Enqueue` | sequencer.go:34-101 | the locked part of enqueue on the real ring does what the value-level step says: dropped with or without a signal, queued, or the start of a drain |
| `Sequencer.CallbackSequencer.Append` | sequencer.go:95-95 | the unchecked push never fails: below the limit the message is in the queue afterwards |
| `Sequencer.CallbackSequencer.DrainNext` | sequencer.go:135-142 | the locked part of the drain loop takes the first message, or clears active when there is none |
| `Sequencer.RunStartsOfLonger` | sequencer.go:49-54 | one more offer begins a maximal run of drops exactly when it is a drop after a kept offer or the first offer |
| `Sequencer.EnqueueKeepsHistory` | sequencer.go:44-95 | every enqueue keeps: dropCount is the length of the run of drops that ends the history, overflowing iff it is positive, one signal for each maximal run of drops, drops exactly at a full queue, offers = accepted + dropped |
| `DeliveryTasks.InvStep` | sequencer.go:33-151 | every action of every goroutine keeps the invariant of the delivery protocol |
| `DeliveryTasks.InvRun` | workerpool.go:65-179 | so does every run |
| `DeliveryTheorems.FifoDelivery` | sequencer.go:95-151 | in every interleaving, accepted = delivered, then at most one message in its callback, then the queue |
| `DeliveryTheorems.NoOverlap` | sequencer.go:132-151 | two callbacks of one subscription's messages never overlap |
| `DeliveryTheorems.OneToken` | sequencer.go:96-127 | active iff a drain token exists among submitter, pool queue, worker and fallback; never two; a non-empty queue has one |
| `DeliveryTheorems.OverflowAccounting` | sequencer.go:44-95 | the accounting of drops, episodes and decisions to signal holds for every subscription in every reachable state |
| `DeliverySignals.SignalsAreDelivered` | sequencer.go:64-85 | in every reachable state, the signal callbacks completed for a subscription plus the goroutines on their way to one number its maximal runs of drops, each with the count 1 |
| `DeliverySignals.AllSignalled` | sequencer.go:64-85 | where nothing can move, and when the WaitGroup is empty with no enqueue in progress, there has been one signal callback for each maximal run of drops |
| `DeliveryTheorems.StopDrainsPool` | workerpool.go:81-179 | nothing is sent on the closed queue, which is closed once; tasks wait in the order sent, within the capacity, and a worker runs the task it received; every queued task has run exactly once when the Stop call that closed the queue returns |
| `DeliverySignals.AnswersAreTrue` | workerpool.go:92-152 | a task has been queued exactly as often as a submit call for it has been answered true, or is about to be |
| `DeliverySignals.RefusedForAReason` | workerpool.go:92-152 | TrySubmit never waits for room, is refused only when the pool is stopped or its queue is full, and Submit only when it is stopped |
| `DeliverySignals.FallbackIsLast` | sequencer.go:103-126 | a call of enqueue with a pool runs the drain on a goroutine of its own only once the pool is stopped, after TrySubmit and Submit |
| `DeliverySignals.EnqueueIsOnItsWay` | sequencer.go:103-126 | every call of enqueue with a pool starts where the former applies |
| `DeliveryTheorems.NoWorkersLeft` | workerpool.go:177-178 | past wg.Wait no worker is left, nothing is queued and no task is running |
| `DeliveryTheorems.ReadersLeave` | workerpool.go:92-179 | while Stop waits for submitMu, every submitter that holds the read lock can take a step |
| `DeliveryTheorems.CloseDeliversAll` | submux.go:739-745 | with no enqueue in progress when it matters and none started later, everything accepted by every subscription has been delivered once the pool's Stop and callbackWg.Wait have returned |
| `DeliveryExact.LoadRun` | sequencer.go:95-151 | in every run, a drain that is being submitted or waits in the pool has a message to deliver |
| `DeliveryExact.CloseIsExact` | submux.go:739-745 | when Close is about to return, a subscription has been handed everything it accepted iff no enqueue in progress still carries its drain |
| `DeliveryTheorems.NothingPending` | sequencer.go:96-151 | a subscription without a drain token has delivered everything it accepted |
| `DeliveryLiveness.WorkShrinks` | sequencer.go:103-151 | every continuing action lowers the amount of work left, so no scheduler can run for ever without new calls |
| `DeliveryLiveness.RunsAreBounded` | sequencer.go:103-151 | a run without new calls is no longer than the work left at its start |
| `DeliveryLiveness.EventualDelivery` | sequencer.go:103-151 | on a started pool, a run without new calls ends, and where nothing can move every accepted message has been delivered and every queued task has run |
| `DeliveryRace.CloseCanOvertakeEnqueue` | sequencer.go:103-126 | a run in which Close returns while an accepted message still waits for its enqueuer to submit the drain |
| `Registry.RegStep` | pool.go:144-246 | every registry operation keeps: lists are non-empty and without repetition, a pending entry is a listed subscription of its channel |
| `Registry.FirstSubscriberSubscribes` | pool.go:169-195 | after any operations, needsSubscribe is answered exactly when the channel had no subscription, and a caller is told to wait exactly when a subscription of the channel is pending, for that one |
| `Registry.ListAfter` | pool.go:144-226 | what each operation leaves in each list: appended once, one occurrence out with the others in order, or untouched |
| `Registry.PendingAfter` | pool.go:169-246 | what each operation leaves pending: set by the first subscriber and a migration, cleared only for the subscription removed or the channel dropped |
| `Registry.PubSubMetadata.GetSubscriptions` | pool.go:252-256 | the shared list of the channel, or none |
| `Registry.PubSubMetadata.ShareThenPerform` | pool.go:248-256 | a list once returned holds the same subscriptions after any sequence of registry operations |
| `Registry.PubSubMetadata.AddSubscription` | pool.go:144-158 | lists the subscription once, in a new list |
| `Registry.PubSubMetadata.AddSubscriptionAndCheckFirst` | pool.go:169-195 | lists the subscription and answers who is to subscribe, in one step |
| `Registry.PubSubMetadata.RemoveSubscription` | pool.go:200-226 | takes one occurrence out, in a new list, drops an empty list, and clears a pending entry only of this subscription |
| `ConnPool.LeastMerge` | pool.go:447-462 | searching two lists one after the other finds what searching their concatenation finds |
| `ConnPool.PubSubPool.FindLeastLoadedPubSub` | pool.go:447-462 | the first active connection with the smallest load, or none exactly when none is active |
| `ConnPool.PubSubPool.CachedPubSub` | pool.go:466-476 | the fast path returns the least loaded active connection cached for the slot |
| `ConnPool.PubSubPool.Survey` | pool.go:548-568 | the search node by node finds the least loaded connection of the whole shard, the connection counts, and whether a node has none |
| `ConnPool.PubSubPool.PickNode` | pool.go:579-586 | the first node with the fewest connections |
| `ConnPool.PubSubPool.Select` | pool.go:539-611 | the first critical section makes the specified choice and its update: reuse, wait for a pending creation, or begin one |
| `ConnPool.PubSubPool.Finish` | pool.go:616-628 | the second critical section deletes the pending entry and, on success only, lists the connection under its node and slot |
| `ConnPool.ChoiceUnique` | pool.go:539-592 | the specification of the choice admits one answer |
| `ConnPool.ReuseIsMinimal` | pool.go:570-577 | a reused connection is active, of the shard, carries no more than any active connection of the shard, and every node of the shard is connected |
| `ConnPool.BuildIsIdle` | pool.go:579-592 | a node chosen for a new connection has no active connection, as few connections as any of the shard, and none at all when some node of the shard has none |
| `ConnPool.RemoveClears` | pool.go:809-846 | after removePubSub the connection is in none of the three indexes, every other list entry is where it was in its order, and no list is empty |
| `ConnPool.PubSubPool.RemovePubSub` | pool.go:809-846 | the loops over both maps do just that, for slots in any order |
| `ConnPool.PubSubPool.AddHashslotPubSub` | pool.go:438-443 | appends to the slot's list unless it is there |
| `ConnPool.PubSubPool.InvalidateHashslot` | pool.go:756-760 | forgets the slot's list and nothing else |
| `BalancedAll.InvRun` | pool.go:539-634 | every run of concurrent selections, creations, failures and removals keeps the pool's invariant |
| `BalancedAll.OnePerNode` | pool.go:539-634 | each node has at most one of an active listed connection and a creation in flight |
| `BalancedAll.SpreadThenBalance` | pool.go:548-611 | whenever a call decides in a reachable state: reuse means minimal load over the shard, creation means a node without active connection or creation in flight, waiting means that creation is in flight |
| `BalancedAll.ResolvedOnce` | pool.go:346-377 | a pending result is resolved at most once, and each waiter can wake or has exactly one creator at work |
| `BalancedAll.CreatorBroadcasts` | pool.go:596-631 | three steps of the creator, however interleaved and whether or not the connection succeeds, bring its broadcast, after which every waiter can wake |
| `BalancedAll.WaitersGetTheResult` | pool.go:594-608 | the creator and every waiter that is not cancelled return the same connection or the same failure |
| `BalancedResults.CreatorReturns` | pool.go:594-633 | a creator returns the connection it made, or the error of its attempt, and so does every waiter that is not cancelled |
| `BalancedResults.SelectionReturns` | pool.go:539-633 | a selection that connects or waits returns, if not an error, a connection made for the node chosen, and has found it listed for its slot on the way |
| `BalancedResults.SelectionEnds` | pool.go:570-592 | one that reuses a connection returns that one, listed for its slot; one without a node fails |
| `BalancedResults.ListRegisters` | pool.go:616-631 | the second critical section lists the new connection last under its node and for the slot, clears the pending entry, and binds the creator to return it |
| `BalancedResults.ConnectMakes` | pool.go:611-616 | a connection is made active, for the node chosen, and is new to the pool |
| `BalancedAll.IndexesAgree` | pool.go:809-846 | index lists are without repetition and non-empty in every reachable state; a node-listed connection has metadata naming the node iff it was not removed before it was listed; removal clears all three indexes |
| `BalancedAll.SlotsAgree` | pool.go:600-602 | an entry of a slot's list is without metadata iff it was made after the connection was removed and the slot has not been invalidated since |
| `BalancedAll.StaleStays` | pool.go:830-842 | such an entry stays until the slot is invalidated, whatever is removed |
| `BalancedAll.StaleHappens` | pool.go:594-604 | a run in which a woken waiter lists a connection that has failed and been removed |
| `BalancedAll.OrphanStays` | pool.go:813-816 | a connection removed before it was listed is listed for ever after |
| `BalancedAll.OrphanStarves` | pool.go:548-577 | while the other nodes of the shard have connections and one of the shard is active, a node with such an entry is given no connection: every selection reuses an active one |
| `BalancedAll.OrphanHappens` | pool.go:611-625 | a run that reaches such a listing: connected, failed, closed, removed, then listed |
| `Unsubscribe.Compact` | submux.go:536-548 | the filter in place moves the subscriptions that stay to the front in order and clears the rest |
| `Unsubscribe.GlobalMap.RemoveSubs` | submux.go:528-553 | every channel of the global map keeps the others in their order, and no empty list stays |
| `Unsubscribe.SubMux.GroupAndCount` | submux.go:500-525 | the subscriptions by channel, and the channels for which one of them is the last listener on its connection |
| `Unsubscribe.SubMux.QueueOne` | submux.go:568-617 | one channel: no metadata, cleaned without a command, cleaned after a refused command, or queued to wait |
| `Unsubscribe.SubMux.QueueCommands` | submux.go:566-618 | phase 1: exactly one command for each channel where one is due, and each channel is either cleaned or waits |
| `Unsubscribe.SubMux.AwaitResponses` | submux.go:620-659 | phases 2 and 3: every channel that waited is cleaned, whatever the response; the first error among the responses, and among the waits that end without one, is kept unless there was one before |
| `Unsubscribe.SubMux.UnsubscribeSubscription` | submux.go:488-662 | the whole call: nothing on a closed SubMux; otherwise the others stay everywhere in order, the commands are those due, the registries told are cleaned with their pending entries, and the error is the first one, of the sends and then of the waits |
| `Unsubscribe.NoErrorIff` | submux.go:604-659 | the call reports no error iff every command due is taken and a nil response to it arrives, if only as the wait ends |
| `Unsubscribe.RemoveAllPending` | submux.go:615-617 | a pending entry is cleared iff it is one of the subscriptions removed |
| `Unsubscribe.RemoveAllCorrect` | submux.go:615-617 | removing subscriptions one by one leaves the others of the channel in order and touches no other channel |
| `Unsubscribe.SilentIffLast` | submux.go:507-523 | the list of the connection that is told ends up empty iff nobody else listened there |
| `Unsubscribe.CommandIsRight` | submux.go:504-525 | UNSUBSCRIBE goes out exactly when its connection is left without listeners, iff it is not the case that others listen there while a subscription of the same Sub is last elsewhere |
| `Unsubscribe.CommandCanBeWrong` | submux.go:576-603 | an input for which it goes out while another listener is still there |
| `Unsubscribe.LeftListed` | submux.go:656-658 | a subscription leaves the registry of the connection that is told, and of no other |
| `EventLoop.InvRun` | eventloop.go:14-91 | every run of the loop, its drain, senders and waiters keeps the command protocol's invariant |
| `EventLoop.OneReply` | eventloop.go:20-91 | each response channel gets at most one value, none is lost to a default case, a waiter returns the value written, and one that reports a stopped loop had no answer coming |
| `EventLoop.TakenAreAnswered` | eventloop.go:14-91 | commands are taken first in first out, by the loop or its drain; each one taken has exactly one answer, except the one being executed; those in the channel have none |
| `EventLoop.AnswersAre` | eventloop.go:34-66 | an executed command is answered the outcome of its write and a drained one that the loop has stopped, for good, and its waiter returns that |
| `EventLoop.DrainAnswersAll` | eventloop.go:262-283 | however the loop ends, every command sent before its drain is over has an answer when loopDone is closed, and nobody gives up on it |
| `EventLoop.SentIffWaiting` | pool.go:333-344 | a command is in the channel or taken iff its sender was neither still sending nor refused; a refused one is never answered |
| `EventLoop.RepliesComeFirst` | submux.go:623-654 | whatever wakes a waiter, it takes the reply that is there, and reports the stopped loop or its context only when there is none |
| `EventLoop.FatalEnds` | eventloop.go:38-60 | an outcome ends the loop iff it is fatal |
| `EventLoop.EndingStops` | eventloop.go:14-91 | once the loop is ending no command is executed, and all answers from then on say that it has stopped |
| `EventLoop.CloseIsSeen` | eventloop.go:84-91 | the connection is done iff it has been closed, and the loop can then end |
| `EventLoop.WaiterWakes` | submux.go:623-654 | a waiter can always take its reply, or see that the loop has exited, or the loop can move; once the loop has exited it can return, even for a command buffered after the drain |
| `EventLoop.WaiterBound` | submux.go:623-654 | a waiter whose command is the i-th in the channel can return after at most 2 i + 3 steps of the loop, messages not counted, whatever else is interleaved |
| `Confirmation.Subscription.SetState` | subscription.go:165-190 | the new state, the value put in confirmCh and the closing of doneCh, which is never closed twice |
| `Confirmation.Subscription.ResetConfirmation` | subscription.go:195-211 | drains a stale value and starts a new cycle |
| `Confirmation.InvRun` | subscription.go:165-269 | every run in which Pending is entered only from another state, after a reset made outside Pending, keeps the invariant of the confirmation protocol |
| `Confirmation.ConfirmationOutcome` | subscription.go:165-269 | in such runs each Pending cycle closes its doneCh once and puts exactly one value in confirmCh, the error of the transition that left Pending |
| `Confirmation.AttendsRun` | subscription.go:243-269 | whoever is blocked or just woken in waitForActive, if not cancelled, still waits or has returned the error with which its cycle ended |
| `Confirmation.WaitReturnsError` | subscription.go:243-269 | whoever blocks in Pending returns, before the next reset, the error of the first transition that leaves Pending, and can return once it is made |
| `Confirmation.LateWaitReturnsError` | subscription.go:243-254 | a call made after that transition returns the same error at once, and one made in Pending blocks |
| `Confirmation.SenderGetsError` | subscription.go:223-237 | waitForConfirmation can take a value only once Pending is left, and it is that error |
| `Confirmation.TakenOnce` | subscription.go:223-237 | the value is taken once a cycle |
| `Confirmation.CancelledIff` | subscription.go:259-268 | in any run a wait is reported as cancelled iff its own context ended it |
| `Confirmation.AnyRun` | subscription.go:165-211 | in any run, with resets and transitions in any order: no doneCh is closed twice, and nobody is blocked on the one in place outside Pending |
| `Confirmation.StrandedStays` | subscription.go:257-268 | a goroutine blocked on a doneCh replaced before it was closed can never wake, whatever follows |
| `Confirmation.ResetStrands` | subscription.go:195-211 | a blocked goroutine is stranded iff a reset comes before the transition that would have released it, and is released when that transition comes first |
| `Confirmation.ResetInPending` | topology.go:972-975 | a reset and setState(Pending) in Pending leave a nil in confirmCh while still pending, strand the waiters, and keep the error of the real transition out |
| `Topology.UpdateCorrect` | topology.go:41-70 | a slot's owner and nodes are those of the last non-empty range that covers it, both slot maps have one domain, and a node's list is that of its ranges |
| `Topology.OwnedIsInverse` | topology.go:60-66 | for disjoint ranges nodeToHashslots is the exact inverse of the owner map, without repetition |
| `Topology.TopologyState.Update` | topology.go:41-70 | the loops build those three maps |
| `Topology.EnrichProperties` | topology.go:111-136 | enrichment keeps slots and masters, extends only lists of one node, and is idempotent |
| `Topology.ReplicasExact` | topology.go:101-119 | what is appended for a master: one address, in record order, for exactly each replica record, not failing, whose master id names that master in its last record |
| `Topology.RefreshedNodes` | topology.go:496-510 | after a refresh a slot's nodes are those answered, and when CLUSTER NODES was answered too and the master stands alone, then its healthy replicas |
| `Topology.TopologyState.EnrichWithReplicaInfo` | topology.go:101-137 | the loops over the parsed records enrich every slot with its master's healthy replicas in order, whatever the map order |
| `Topology.TopologyState.CompareAndDetectChanges` | topology.go:248-283 | the two passes mention every slot whose owner changed, once, with both owners, and no other slot |
| `Topology.ReplayAt` | topology.go:248-283 | replaying a diff changes the owner of the slots it mentions to the new one, and of no other |
| `Topology.ReplayDiff` | topology.go:248-283 | replaying a diff reproduces the new owners iff no slot has just got an empty address |
| `Topology.EmptyAddressIsLost` | topology.go:256-279 | a slot that gets an empty address is reported like one that disappears |
| `Topology.TopologyMonitor.RefreshTopology` | topology.go:411-516 | a failed query changes nothing; a successful one reports the exact diff and swaps the state; folding all diffs ever reported from the empty state gives the current owners, as long as masters have addresses |
| `Topology.MasterFirst` | topology.go:49-70 | after any refresh entry 0 of a slot's nodes is its owner |
| `Migration.HandleRun` | topology.go:580-593 | every interleaving of serialized launches and finishing goroutines keeps the invariant of the handles |
| `Migration.CancelAndReplace` | topology.go:580-593 | a slot has at most one goroutine with an uncancelled handle, and that handle is the stored one; a finishing goroutine never deletes another's handle, not even one stored for a goroutine about to be launched; nothing is left when all have finished |
| `Migration.CancelledByReplacement` | topology.go:581-583 | a handle is cancelled only by a later launch for the same slot, which loaded it |
| `Migration.LaunchForSlot` | topology.go:580-593 | a launch stays with its slot until it is done |
| `Migration.LaunchBegins` | topology.go:580-583 | and begins with it |
| `Migration.LaunchStarts` | topology.go:585-593 | it ends with one more goroutine, for that slot, whose handle is new, stored and not cancelled |
| `Resubscribe.KeepSplit` | topology.go:883-890 | the groups by type and channel partition the subscriptions |
| `Resubscribe.Resubscription.ResubscribeOne` | topology.go:919-1013 | one subscription is moved, whatever happens between its steps: taken off the old connection, counted once or handed to one goroutine; the list at the second look decides whether it joins, and the context whether it subscribes or is late; what the loop does to registries, states and connection is exactly what `Doing` lists |
| `Resubscribe.Resubscription.ResubscribeGroup` | topology.go:897-1015 | one group: skipped iff the context has expired at the first check or no connection is got, and otherwise moved to that connection, in order, with at most one subscribing; it ends the loop iff the context expires while no connection is got |
| `Resubscribe.Resubscription.ConnectAndMove` | topology.go:904-1015 | the same for the part after the first check |
| `Resubscribe.TakenOff` | topology.go:929-930 | a subscription taken off a connection is not listed there afterwards, unless it is listed again |
| `Resubscribe.Resubscription.ResubscribeOnNewNode` | topology.go:882-1019 | each subscription is accounted for at most once, and exactly once unless the loop returned early; what becomes of each is what its group's connection and the context allow; at most one subscribe command for each type and channel, and every subscription that was moved is listed on its new connection; the loop returns early, the context expiring in no other way, iff for some group it expires while no connection is got |
| `Resubscribe.Resubscription.Migrate` | topology.go:882-1019 | with its goroutines, whatever becomes of their commands, the counter ends at the number of subscriptions unless the loop returned early, and never exceeds it; each goroutine started has met exactly one fate; with connections and time for all, every subscription has joined or subscribes on its group's connection |
| `Resubscribe.AllMoved` | topology.go:911-1013 | when every group gets a connection that keeps its metadata and the context stays live, none is skipped, lost or late |
| `Resubscribe.Resubscription.EndGoroutine` | topology.go:983-1011 | a goroutine counts itself whether its command is refused, not written, lost or written, is no longer pending when it is refused or not written, and leaves its subscription failed unless it is written |
| `Resubscribe.GroupsExtend` | topology.go:896-1018 | handling one group after another never gives a group a second subscribe command, and unlists nothing placed before |
| `Resubscribe.NobodyAsked` | pool.go:169-195 | as long as a subscription stays listed, no use of the registry has anybody told to send SUBSCRIBE for its channel |
| `Resubscribe.SubscribeGoesOut` | topology.go:951-1013 | for a channel new to the connection, SUBSCRIBE goes out iff nobody else is listed at the second look, the context is live after it, and the command is taken and written |
| `Resubscribe.SilentAfter` | topology.go:960-970 | whatever became of a subscription, nobody is told to send SUBSCRIBE for its channel while it stays listed |
| `Resubscribe.NeitherSubscribes` | topology.go:951-1013 | an interleaving in which another subscriber comes between listing and look: it is told not to subscribe, the migration joins it, and nobody subscribes afterwards |
| `Resubscribe.LateLeavesSilence` | topology.go:962-970 | an interleaving in which the context has expired at the check, and nobody subscribes afterwards |
| `Resubscribe.FailureLeavesSilence` | topology.go:998-1003 | interleavings in which it is alone and in time, but the command is refused, cannot be written (eventloop.go:38-56) or is lost with the loop, and nobody subscribes afterwards |
| `Gf2.RemainderUnique` | hashslot.go:46-87 | the remainder of a division of polynomials over GF(2) is unique |
| `HashSlot.TableFollows` | hashslot.go:47-80 | every entry of the table is the entry at half its index divided by one more bit |
| `HashSlot.TableIsRemainder` | hashslot.go:47-80 | entry k is the remainder of the byte k followed by sixteen zero bits |
| `HashSlot.DivideBitIsRemainder` | hashslot.go:46-80 | one step of bit-by-bit long division |
| `HashSlot.UpdateIsRemainder` | hashslot.go:84-84 | one table step is eight steps of the long division |
| `HashSlot.Crc16Sum` | hashslot.go:82-87 | for every byte string the checksum is the remainder of the message followed by sixteen zeros on division by x^16 + x^12 + x^5 + 1 |
| `HashSlot.Crc16Unique` | hashslot.go:82-87 | that remainder is the only one, so the checksum is determined |
| `HashSlot.TagIsExtracted` | hashslot.go:25-33 | of prefix{tag}suffix, with no '{' before and a non-empty tag without '}', the tag is extracted |
| `HashSlot.ExtractedIsTag` | hashslot.go:25-33 | conversely, whatever is extracted is the whole key or such a tag |
| `HashSlot.ExtractIdempotent` | hashslot.go:25-33 | extracting twice is extracting once |
| `HashSlot.Hashslot` | hashslot.go:14-20 | the slot of a channel is, modulo 16384, a remainder by the polynomial of its key, which is a tag of it, or all of it when it has none; the empty channel gets the slot drawn |
| `HashSlot.SlotUnique` | hashslot.go:14-20 | that determines the slot |
| `HashSlot.TagsShareSlot` | hashslot.go:14-33 | prefix{tag}suffix and tag share a slot |

## Left out

- Calls into go-redis, TLS and authentication options, cluster queries and the fallback to seed nodes: each is an arbitrary success or failure.
- Metrics, logging, configuration clamping, error texts and enum names.
- `EnrichWithReplicaInfo`: the text of CLUSTER NODES is not parsed; enrichment starts from parsed records.
- Random choices: the slot drawn for an empty channel name is a parameter; the PreferReplicas pick is not modelled.
- Wall-clock time: stall and timeout signals, and the monitoring loop around the resubscription.
- `ResubscribeOnNewNode`: the call of invalidateHashslot at its start (topology.go:892-895) is not part of the model, which takes the connection got for each group as given; what the call does is `InvalidateHashslot`.
- What the event loop does with messages, and with its subscriptions when it fails (notifySubscriptionsOfFailure, onEventLoopExit): the model of the loop is about commands.
- Callback bodies and panics in them: a callback is a step that ends.
- A nil worker pool together with a nil callbackWg: enqueue is modelled with or without a pool, always with the WaitGroup that SubMux gives it.
- The connection's state and load are read at one moment by a selection, although each sits behind its own lock.
- `OnePerNode`: covers calls of `selectLeastLoadedAcrossNodes` only. `createPubSubForHashslot` drops its lock between check and creation (pool.go:489-524), under PreferMasters and PreferReplicas and also under BalancedAll when the topology does not know the slot, so a node can get two connections there.
- closeAll, and selections that race with it.
- The order of connection states when close races a failing command: setState is unguarded, so Closed can become Failed.
- `UnsubscribeSubscription`: stated for a call that nothing disturbs, although its count, its send and its cleaning are separate critical sections; what holds of it when others subscribe in between is not claimed.
- Removals of subscriptions by others while the resubscription loop runs: with them a second SUBSCRIBE in a group is possible.
- A second Stop call that returns before the drain of the first has ended: it is part of the protocol, but promises nothing.
- The mutable lists of the pool are values: `slices.Delete` shifts entries inside the backing array, which readers reach only under the pool's lock.
