# WMQ: a model with proofs

WMQ is an HTTP front end over RabbitMQ. A *message* is an exchange with settings, a *consumer* is a
queue bound to it and a worker goroutine that passes each delivery to a URL. This project models the
state that WMQ keeps under its I/O and proves what that state satisfies, in every run, on every
interleaving, and for every failure of the broker.

| file | what it models |
|---|---|
| `Config.dfy` | the records of a message and a consumer, and the key of a consumer; sums over sequences |
| `ConsumerSystem.dfy` | the consumer manager, its workers and its callers as a transition system: one step for every table Get, Set and Remove, every channel send and receive, every pool call and every broker call |
| `ConsumerControl.dfy`, `ConsumerResources.dfy` | its invariant: table and workers, commands and answers, leased connections, deliveries |
| `ConsumerTheorems.dfy` | what the invariant means in every reachable state |
| `Commands.dfy` | what the manager has done when it answers a command |
| `Settling.dfy`, `Hands.dfy` | what becomes of a delivery in a worker's hands, and how a worker leaves |
| `Abandoned.dfy` | copies left on a channel that nobody has any more |
| `Overlap.dfy` | the one way in which table and workers come apart, and exactly when it happens |
| `LostUpdate.dfy` | exactly when an answered update stays in the table |
| `Continuation.dfy`, `Blocking.dfy` | how a worker can go on from anywhere, and exactly when the manager can |
| `Witnesses.dfy` | runs in which these go wrong, for any consumer |
| `Delivery.dfy` | where the copies of published messages are |
| `PoolLedger.dfy`, `NetPool.dfy` | the pool of connections or channels: the ownership of handles, and the code |
| `Topology.dfy` | exchanges, queues and bindings at the broker, and the reconciliation with the messages |
| `Declarations.dfy`, `Mq.dfy` | the declare loops under every pattern of faults, and the calls of mq.go |
| `Registry.dfy` | the slice of messages edited in place, and the operations on it |
| `Requests.dfy` | which requests are acceptable, and what an accepted one stores, by the request's own fields |
| `Establishing.dfy` | what an initMessages that returns nil has achieved, at any broker and for all faults |
| `Mirror.dfy`, `Bindings.dfy`, `Api.dfy` | the request handlers, whole runs of requests, the broker as a mirror of the registry, and the bindings it keeps |
| `Fnv.dfy`, `ConcurrentMap.dfy` | the hash, and the sharded map call by call |
| `MapIteration.dfy`, `MapScans.dfy` | the map's iterators, `Count` and `Keys`, running against writers |

Imperative code is modelled as classes and methods proved against functions on values. Goroutines are
modelled as transition systems (a state, a type of steps, a function `Do` from a state and a step to
an optional next state); a *run* starts in an initial state and any enabled step may come next. The
two meet in shared definitions: a worker's pool calls are steps of the ledger that the pool class
refines, its broker calls are events of `Delivery`, and the handlers of `Api` refine the runs of
`Mirror`.

The functions that say what a step does, and the code they follow:

| function | code |
|---|---|
| `ConsumerSystem.DoCaller` | message.go:358-374, and the msgLock of message.go:165-298; main's start in wmq.go:35-43 |
| `ConsumerSystem.DoManager` | message.go:447-629 |
| `ConsumerSystem.DoTable`, `DoPool`, `DoSignal` | the table, pool and control channel accesses of message.go:476-579, and the outcome of `process` |
| `ConsumerSystem.Ladder`, `Settlement` | message.go:507-560 and message.go:580-606 |
| `Delivery.Apply` | the broker's queues and channels |
| `PoolLedger.Apply` | pool.go:47-92 |
| `Declarations.AttemptsOf` | mq.go:56-91 and mq.go:101-138 |
| `Topology.Reconcile` | message.go:378-410 over mq.go:48-157 |
| `Mirrors.Guard`, `Edit`, `Drive` | api.go:30-305 over message.go:165-298 |
| `MapIteration.Do`, `MapScans.Do`, `MapScans.DoCount` | map.go:158-209, map.go:243-271 and map.go:94-103 |

The environment is a nondeterministic choice: whether a handle is active, whether the factory, a broker
call or a file write fails, whether a failed call had reached the broker, what `process` answers, and
when the broker closes a channel, cancels a consumer or deletes a queue. Two assumptions appear by
name. A *released handle is never active again*. A *reliable* client is one whose pool and broker fail
only where parameters mismatch or an entity is missing; it is required only by the statements about
convergence and mirroring. The broker follows sections 1.6 (exchange), 1.7 (queue) and 1.8 (basic) of
the AMQP 0-9-1 reference; `basic.nack` is a RabbitMQ extension. The hash has the constants of sections
2.1 and 2.2 of draft-eastlake-fnv.

Where the code falls short of what one would expect, the model follows the code:

- A worker's `Remove` can fall between the manager's `Get` and `Set`. Then the entry has no worker, for
  good (`Overlap.OrphanedIffOverlapped`, `Witnesses.OrphanIsReachable`).
- The manager sends exit to the channels in the table. It waits for good exactly when the slot is full and
  no worker is left that can come to read those channels (`Blocking.CanGoOnIff`): because the entry is
  orphaned, or because its live worker holds the channels of before the last update
  (`Witnesses.BlockedByOrphan`, `Witnesses.BlockedBesideLiveWorker`).
- An answered update can be lost: overwritten by a worker that had read the entry before, or removed with
  the entry by a worker that leaves, which is what a stop followed by an update asks for. It stays exactly
  as long as neither happens (`LostUpdates.UpdateSurvivesIff`, `Witnesses.UpdateIsOverwritten`,
  `Witnesses.UpdateIsRemoved`).
- A worker that retries leaves its old channel open. A copy whose settling was lost stays unsettled there,
  never to be delivered again, until the broker closes the channel or a queue is deleted
  (`Abandoned.AbandonedForever`, `Abandoned.LostSettlingAbandons`).
- The declare loops can return nil with nothing declared, under exactly the faults of
  `Declarations.QueueNilIff`; never without faults.
- `Put` releases an inactive handle and still queues it, so a handle is released twice exactly when its last
  `Put` found it inactive, and never more often (`PoolLedger.ReleasedAgainIff`,
  `PoolLedger.AtMostTwoReleases`). A failed channel Get makes its caller queue a typed nil.
- A changed RouteKey leaves its old binding, and a consumer update leaves its new binding to the next
  initMessages, for every message, consumer and pair of RouteKeys (`Bindings.BindingThereIff`,
  `Bindings.StaleAndMissing`, `Bindings.StaleStays`).
- Consumer keys are injective on IDs of one length, not in general; without that, deleting one consumer
  deletes another's queue (`Config.KeyCollision`, `Mirrors.SharedQueueBreaksMirror`).
- `deleteConsumer` edits the registry before the calls that can fail; every other operation fails with the
  registry unchanged.
- A data file that cannot be read is never reported: the program starts with an empty registry
  (`Api.Server.LoadMessagesFromFile`).

## Model

| member | source | states |
|---|---|---|
| `Config.KeyInjectiveOnEqualLengthIds` | message.go:375-377 | two consumers whose IDs have one length share a key exactly when names and IDs are equal |
| `Config.KeyCollision` | message.go:375-377 | without that length condition two different consumers can share a key |
| `ConsumerControl.ManagerKeepsWorkers` | message.go:456-484 | every step of the manager keeps: one live worker per key, its key in the table, none for a key about to get one |
| `ConsumerControl.ManagerKeepsItems` | message.go:459-472 | every step of the manager keeps each item in use tied to its own key and to control channels made for that key |
| `ConsumerControl.ManagerKeepsSlots` | message.go:449-618 | every step of the manager keeps the answer channel free of each worker that still owes an exit_ok |
| `ConsumerControl.QuietKeepsControl` | message.go:573-607 | a worker step that leaves the table alone keeps all of that, whatever it takes from or sends on its own channels |
| `ConsumerControl.LoadKeepsControl` | message.go:494-516 | so does the worker copying its table entry |
| `ConsumerControl.WriteKeepsControl` | message.go:496-497 | so does the worker writing back an old copy over whatever the table holds by then |
| `ConsumerControl.RemoveKeepsControl` | message.go:477-478 | so does the worker removing its entry when it leaves |
| `ConsumerControl.StepKeepsControl` | message.go:347-633 | so does every step of every goroutine, in any order |
| `ConsumerResources.CallerKeepsPaired` | message.go:358-374 | a caller's step keeps the pairing: at most one command under way, in exactly one of inbox, manager and outbox |
| `ConsumerResources.ManagerKeepsPaired` | message.go:449-629 | a manager's step keeps the pairing, and its answer has the kind the action asks for |
| `ConsumerResources.GetKeepsLeases` | message.go:499-505 | a worker's Get, successful or not, keeps: one leased connection exactly where the worker needs one |
| `ConsumerResources.PutKeepsLeases` | message.go:574-585 | a worker's Put gives back exactly the connection it held and keeps the same |
| `ConsumerResources.UserKeepsLeases` | mq.go:260-272 | other users of the connection pool never take or give back what a worker holds |
| `ConsumerResources.LadderSettles` | message.go:506-560 | the retry ladder keeps every copy accounted for, acknowledges none, and sets a prefetch of 1 before it consumes |
| `ConsumerResources.SettlementSettles` | message.go:580-606 | taking and settling deliveries acknowledges at most the copy in hand, and only after process succeeded on it |
| `ConsumerResources.StepKeepsInv` | message.go:347-633 | every step of callers, manager, workers, broker and other pool users keeps the whole invariant |
| `ConsumerResources.RunKeepsInv` | message.go:347-633 | the invariant holds in every state of every run from the program's start |
| `ConsumerTheorems.OneLiveWorkerPerKey` | message.go:473-484 | in every reachable state a key has at most one live worker, and a live worker's key is in the table |
| `ConsumerTheorems.StartedOnlyWhenNoneLives` | message.go:459-475 | a worker is started only for a key without a live worker, and is then the only one |
| `ConsumerTheorems.RemovedOnlyByItsWorker` | message.go:477-484 | an entry leaves the table only through the Remove of that key's live worker, which has received exit |
| `ConsumerTheorems.WorkersLeaveOnlyWhenTold` | message.go:489-497 | no worker takes a not-found branch or a failing type assertion, so it leaves only after exit |
| `ConsumerTheorems.ToldByExitCommand` | message.go:574-579 | a worker is told to leave only by an exit that it takes from a control channel made for its own key |
| `ConsumerTheorems.ExitOkNeverBlocks` | message.go:577 | the exit_ok send always finds its channel empty |
| `ConsumerTheorems.OneConnectionPerWorker` | message.go:499-583 | a worker holds one leased, never released connection where it needs one, none at the top of a retry and none when gone |
| `ConsumerTheorems.WorkerMayPut` | message.go:501-582 | whenever a worker gives a connection back, the pool's contract allows it |
| `ConsumerTheorems.AnswersArePaired` | message.go:358-374 | at most one caller waits, and the answer in the channel is to its own command and of the right kind |
| `ConsumerTheorems.ControlSendsNeverBlock` | message.go:365-371 | a caller that may call finds room for its command, and the manager finds room for its answer |
| `ConsumerTheorems.NoUnknownCommand` | message.go:628-629 | the manager never answers that it does not know the command |
| `ConsumerTheorems.DeliveriesConserved` | message.go:586-606 | every published copy is ready, unsettled, acknowledged or lost with a deleted queue, exactly one of these, and every acknowledged copy was processed successfully |
| `ConsumerTheorems.OneUnsettledPerChannel` | message.go:546 | a channel never has more than one unsettled delivery |
| `ConsumerTheorems.NothingLostBetweenDeletions` | message.go:545-606 | at-least-once: while no queue is deleted, a copy stays ready or unsettled until it has been processed successfully |
| `Commands.NotifySends` | message.go:358-374 | a caller's command reaches the manager as it was asked, and is what the caller waits for; an unknown action sends nothing |
| `Commands.LockIsPassedOn` | message.go:165-298 | one caller at a time holds the lock, and one that has its answer can pass it on to any other |
| `Commands.StepKeepsFresh` | message.go:467-484 | whatever the others do while the manager does nothing, a new entry keeps its settings and its key the same live workers, none of them told to leave |
| `Commands.HistoryOf` | message.go:447-632 | over any run, a manager at a command has received it, looked it up once, and done since then exactly what its place in the code says |
| `Commands.AnsweredUpdate` | message.go:456-611 | over any run, an update is answered only after an Install of its settings with new channels; if the key was absent at the look-up, a worker of the key has been started when there was none, and at the answer it is the only live one and the settings are in the table |
| `Commands.AnsweredDelete` | message.go:612-619 | over any run, a delete is answered only after an exit was put into the empty channel of the entry found at the look-up, or when there was none |
| `Commands.AnsweredStatus` | message.go:620-627 | over any run, a status is answered with the time of the entry found at the look-up, or 0 |
| `Commands.TimesAreWritten` | message.go:463-497 | an entry's time is the one last written into it: by the manager's or its worker's write-back, or 0 by an Install |
| `Settling.SettlesIffHeld` | message.go:589-598 | in every reachable state an ack or a nack reaches the broker exactly if the worker's open channel has the copy unsettled |
| `Settling.SettleDecides` | message.go:589-598 | it leaves a copy that was processed successfully acknowledged and nowhere else, and another ready in its queue and not acknowledged; no other copy is touched |
| `Settling.LostSettleChangesNothing` | message.go:591-602 | one that does not reach it changes nothing at the broker, and the worker goes on |
| `Settling.AcknowledgedIff` | message.go:589-591 | over any run, a copy is acknowledged exactly if a worker that had processed it successfully has settled it at the broker |
| `Settling.ProcessedIff` | message.go:589 | over any run, a copy counts as processed exactly if a worker that had it in hand processed it successfully |
| `Hands.StepKeepsHands` | message.go:506-606 | every step of anybody keeps: a worker's stream and hand hold different copies of its own queue, each unsettled on its channel while that is open and the copy not dropped; no two workers have one channel; a worker told to leave is leaving |
| `Hands.CopyInHand` | message.go:586-589 | in every reachable state the copy in a worker's hand is of its own queue, and can be settled exactly as long as the channel is open and the copy not dropped with the queue |
| `Hands.OneHandPerCopy` | message.go:586-589 | no copy is in the hands of two workers |
| `Hands.DeliveryGoesThrough` | message.go:580-606 | a copy that waits on a worker's open channel can be taken, processed with either outcome and settled, and ends acknowledged or ready |
| `Hands.ReadyCopyGoesThrough` | message.go:554-606 | so can a copy that is ready in the queue of a subscribed worker |
| `Hands.ConsumeSubscribes` | message.go:554 | the last step of the ladder subscribes the channel to the worker's own queue, one copy at a time |
| `Hands.StreamEndsIff` | message.go:580-584 | a worker gives up its stream exactly when the broker has ended it and every copy of it is taken |
| `Hands.RedeclaringLoses` | message.go:533 | a declaration that deletes the queue loses every copy ready or unsettled there |
| `Hands.CommandIsExit` | message.go:574-575 | a worker that takes a command is told to leave |
| `Hands.ToldWorkerLeaves` | message.go:574-579 | in every reachable state a worker that was told is leaving, and its next step is possible until it is gone |
| `Hands.LeavingGetsOn` | message.go:477-579 | each step of a leaving worker is the next one: give back the connection, answer, remove the entry, close the channel |
| `Hands.ExitIsAnswered` | message.go:577 | it leaves its answer in the channel made for its key |
| `Hands.GoneWorkerLeavesNothing` | message.go:477-482 | a worker that is gone holds no connection and no copy; its channel is closed with nothing unsettled on it |
| `Abandoned.AbandonedForever` | message.go:506-513 | in every continuation a copy left unsettled on an open channel that nobody has stays there, not ready and not acknowledged, until the broker closes the channel or a queue is deleted |
| `Abandoned.LostSettlingAbandons` | message.go:580-584 | from any reachable state in which a worker is about to settle a copy, with nothing else on its open channel: a lost settling, an ended stream and the next attempt get there |
| `Overlap.StepOrphans` | message.go:459-478 | a step leaves a key orphaned exactly when it was, or when the worker's Remove falls between the manager's Get and its last Set; no step undoes it |
| `Overlap.OrphanedIffOverlapped` | message.go:459-478 | over any run, a key is orphaned exactly when that overlap has happened for it |
| `Overlap.EntryHasWorkerIffNoOverlap` | message.go:456-484 | whenever the manager is not at work on the key: table entry and live worker go together, if and only if there was no overlap |
| `Overlap.OrphanIsForever` | message.go:473-475 | after the overlap the key never has a live worker again, in any continuation |
| `Continuations.FromAnywhere` | message.go:486-573 | from wherever it is, a live worker that has not been told to leave can get to its select with a fresh copy of its entry, by its own steps and the broker's, unless it is about to write back an old copy |
| `Blocking.StepKeepsBlocked` | message.go:613-616 | a manager whose exit waits for a full slot that no worker can still take from stays so, on every step of anybody |
| `Blocking.BlockedForever` | message.go:613-616 | in every continuation it is where it was |
| `Blocking.CanGoOnIff` | message.go:613-616 | in every reachable state a manager about to send exit can come to send it, in some continuation, exactly when the slot is free or a worker that can take from it is left |
| `Witnesses.OverlapHappens` | message.go:185-194 | the overlap is reachable for every consumer, by a stop followed by an update |
| `Witnesses.OrphanIsReachable` | message.go:185-194 | so is a calm state after it, with an entry and no worker |
| `Witnesses.BlockedByOrphan` | message.go:613-616 | a blocked manager is reachable with an orphaned entry, by stopping it twice |
| `Witnesses.BlockedBesideLiveWorker` | message.go:494-497 | and with a live worker, whose copy has the channels of before the last update |
| `Witnesses.UpdateIsOverwritten` | message.go:494-497 | for any old and new settings: an answered update is in the table, and the worker's next step puts the old settings back |
| `Witnesses.UpdateIsRemoved` | message.go:477-478 | for any old and new settings, with no overlap: an answered update is in the table, and the leaving worker's next step removes the entry |
| `LostUpdates.StepOutdates` | message.go:459-472 | on every interleaving a worker's copy of its entry stays current until the manager rewrites the entry, and is outdated ever after |
| `LostUpdates.CopyIsCurrentIff` | message.go:569-572 | over any run, the copy is current exactly when the manager has not rewritten the entry since it was read |
| `LostUpdates.WriteBackKeepsIff` | message.go:569-572 | the write-back leaves the settings in the table alone exactly when the manager has not rewritten the entry since the worker read it |
| `LostUpdates.EntryChanges` | message.go:477-497 | on every step other than the manager's an entry stays, or is written back from its worker's copy, or goes with its live worker's Remove |
| `LostUpdates.IntactUnlessLost` | message.go:467-472 | over any run from an Install that the manager does not replace: its settings are in the table, and every copy that has others was read before; or they are gone from the table and from every copy |
| `LostUpdates.UpdateSurvivesIff` | message.go:467-472 | over any run: the settings of an Install that the manager does not replace are in the table exactly as long as no worker of the key has written back a copy read before, and none has taken its Remove |
| `Delivery.PushConserves` | message.go:554 | pushing a copy to a channel keeps every published copy in exactly one place |
| `Delivery.CloseConserves` | message.go:479-480 | so does closing a channel, whose unsettled copies go back to their queues |
| `Delivery.DeleteConserves` | mq.go:73 | so does deleting a queue, whose ready and unsettled copies are lost |
| `Delivery.AckConserves` | message.go:591 | so does acknowledging an unsettled copy |
| `Delivery.RequeueConserves` | message.go:598 | so does a nack with requeue |
| `Delivery.EventConserves` | message.go:545-606 | every broker event keeps each published copy in exactly one place, and no place holds anything else |
| `Delivery.EventKeepsOneUnsettled` | message.go:546-554 | when consumers set a prefetch of 1 before consuming, no event gives a channel two unsettled copies |
| `PoolLedger.SweepKeepsOwned` | pool.go:50-57 | releasing and dropping any number of inactive handles from the front keeps ownership |
| `PoolLedger.GetKeepsOwned` | pool.go:47-66 | Get keeps ownership: every handle made is idle once, leased once or gone, with the releases each allows |
| `PoolLedger.GetLeases` | pool.go:47-66 | a successful Get leases one handle that nobody held; a failed one leases none |
| `PoolLedger.PutKeepsOwned` | pool.go:68-82 | so does Put, though it queues a handle it has just released |
| `PoolLedger.ReleaseAllKeepsOwned` | pool.go:83-92 | so does ReleaseAll, which changes the capacity |
| `PoolLedger.RunKeepsOwned` | pool.go:47-92 | ownership over any run of the pool, and releases are never undone |
| `PoolLedger.AtMostTwoReleases` | pool.go:68-82 | no handle is released more than twice |
| `PoolLedger.ReleasedAgainIff` | pool.go:68-82 | over any run of a pool that has released nothing yet: an idle handle has one release, and a gone one two, exactly when its last Put found it inactive |
| `PoolLedger.ReleasedTwice` | pool.go:74-81 | both ways there: queued inactive and released again by a Get that skips it, or released again at once because there is no room |
| `PoolLedger.ActivePutIsReused` | pool.go:68-82 | a healthy handle put back while there is room is queued unreleased, and the next Get returns it when nobody is queued before it |
| `PoolLedger.FullPutReleases` | pool.go:77-80 | without room it is released and not queued |
| `PoolLedger.BorrowsKeepLeases` | mq.go:260-272 | however often handles are got and put back by whoever got them, whatever the pool answers, the leases are as before and ownership is kept |
| `NetPools.NetPool.NewNetPool` | pool.go:23-39 | the pool starts full of fresh handles, or every handle made has been released exactly once, or, when InitialCap exceeds MaxCap and the factory does not fail before, the send to the full channel waits for good |
| `NetPools.NetPool.Get` | pool.go:47-66 | returns the first active handle in FIFO order, having checked and released each one before it, in that order, and leaves the others queued; asks the factory only when none is left; on failure the pool is empty |
| `NetPools.NetPool.Put` | pool.go:68-82 | nil changes nothing; any other handle is checked, released if inactive, queued at the end if there is room, and released if there is none; the log, the release counts and the leases say exactly that |
| `NetPools.NetPool.ReleaseAll` | pool.go:83-92 | releases each idle handle once, in order, empties the queue and sets the capacity to InitialCap |
| `Topology.NamedInjective` | mq.go:42-47 | prefixing keeps names apart |
| `Topology.ReconcileConsumersKeeps` | message.go:388-399 | reconciling one message does not undo another that agrees with it |
| `Topology.ReconcileConsumersEstablish` | message.go:388-399 | the inner loop gives every consumer its queue and binding, and later rounds leave them |
| `Topology.ReconcileConverges` | message.go:378-410 | from any broker, initMessages reaches one with every exchange, queue and binding the messages ask for |
| `Topology.ConvergesIffConsistent` | message.go:378-410 | it does so exactly when the messages do not contradict each other |
| `Topology.ConvergedIsFixed` | message.go:378-410 | a broker that has everything is not changed |
| `Topology.SecondRunChangesNothing` | message.go:378-410 | a second initMessages changes nothing |
| `Topology.ReconcileEntities` | message.go:378-410 | initMessages adds exactly the configured exchanges and queues and removes none |
| `Declarations.DeclareLoopBounds` | mq.go:56-91 | a call makes at most two declares and never more deletes than declares |
| `Declarations.FaultlessQueueAttempts` | mq.go:56-91 | without faults the loop leaves exactly the queue the declaration asks for, and succeeds |
| `Declarations.FaultlessExchangeAttempts` | mq.go:101-138 | the same for an exchange |
| `Declarations.AttemptsFollow` | mq.go:56-138 | how the attempts end, for all faults, depends on the one queue or exchange only |
| `Declarations.QueueNilIff` | mq.go:56-91 | for every broker and all faults: the loop returns nil without a declaration exactly under a condition on what is there before and which calls the faults hit; nil means that then the queue is gone, and that otherwise it is there as wanted |
| `Declarations.ExchangeNilIff` | mq.go:101-138 | the same for an exchange |
| `Declarations.QueueNilHappens` | mq.go:59-61 | two such runs, in which only replies are lost |
| `Declarations.CarriesMeans` | message.go:378-410 | calls that carry out a plan are the plan's in order, none but the last returns an error, the whole fails exactly when the last does, and otherwise all of it is made |
| `Declarations.CarriesOn` | message.go:378-410 | a plan carried out and then another are the two together |
| `Declarations.CarriesStops` | message.go:384-405 | after an error no further call is made |
| `Declarations.OneMoreRound` | message.go:381-408 | a loop that carries out one plan a round and stops at an error carries out the plans in turn |
| `Mq.Client.GetMqChannel` | mq.go:32-41 | leases one channel nobody held, or leaves the leases alone and the caller with a typed nil |
| `Mq.Client.OnChannel` | mq.go:141-197 | as many channels are put back as were got, on every path, and the broker and the result are those of the faults |
| `Mq.Client.QueueAttempt` | mq.go:58-86 | one round of the loop: lease balance, its counts of declares and deletes, and exactly the attempt and broker of its faults |
| `Mq.Client.QueueDeclare` | mq.go:48-92 | lease balance for every pattern of failures; exactly the attempts and the broker of its faults; its error is theirs; nil means the queue is there as wanted, unless the faults mislead the loop |
| `Mq.Client.ExchangeAttempt` | mq.go:103-133 | the same round for an exchange |
| `Mq.Client.ExchangeDeclare` | mq.go:94-139 | the same for an exchange with its kind and Durable |
| `Mq.Client.QueueBindToExchange` | mq.go:141-157 | lease balance; nil means bound; on a reliable broker it fails exactly when queue or exchange is missing |
| `Mq.Client.DeleteQueue` | mq.go:159-177 | lease balance; nil means the queue and its bindings are gone |
| `Mq.Client.DeleteExchange` | mq.go:178-197 | lease balance; nil means the exchange and its bindings are gone |
| `Mq.Client.Publish` | message.go:311-326 | lease balance on every path; it fails exactly when no channel can be got or the send faults, and nil means that the send was made |
| `Mq.ChannelFactory` | mq.go:260-272 | opening a channel is one such borrowing of a connection, on every path |
| `Registries.Lookup` | message.go:84-94 | the place of the first message of that name |
| `Registries.LookupConsumer` | message.go:95-111 | the place of the first consumer of that ID |
| `Registries.DeleteQueuesStops` | message.go:207-221 | deleting the queues fails as a whole when it fails on some of them |
| `Registries.Registry.GetMessage` | message.go:84-94 | the loop finds the first message of that name, or none |
| `Registries.Registry.GetConsumer` | message.go:102-110 | the loop finds the first consumer of that ID, or none |
| `Registries.Registry.InitMessages` | message.go:378-410 | for every broker and all faults: the declares and binds of the registry in order, each with the outcome of its faults, up to the first that returns an error, which is then the result; on a reliable broker this is Reconcile; registry and leases stay |
| `Registries.Registry.InitMessage` | message.go:381-408 | one round of the outer loop, with the same for its part |
| `Registries.Registry.InitConsumers` | message.go:388-407 | the inner loop, with the same for its part |
| `Registries.Registry.Replace` | message.go:653-655 | a list read from the file becomes the registry, each consumer list in an array of its own |
| `Registries.Registry.Snapshot` | message.go:637 | the value that is written to the file is the registry |
| `Registries.Registry.Publish` | message.go:300-328 | an unknown message and a wrong token are refused, with no channel taken; otherwise the call fails exactly when no channel can be got or the send faults, and success means that the send was made |
| `Registries.Registry.AddMessage` | message.go:165-173 | appends one message without consumers, then makes the calls of initMessages, whose error it ignores |
| `Registries.Registry.AppendCell` | message.go:169 | append in place or into a larger array adds one entry and leaves the others |
| `Registries.Registry.UpdateMessage` | message.go:174-196 | replaces one header, keeps its consumers and makes the calls of initMessages, or fails, makes none and changes nothing |
| `Registries.Registry.RemoveCell` | message.go:229 | the in-place shift removes exactly one entry and keeps the order |
| `Registries.Registry.DeleteMessage` | message.go:197-233 | removes exactly one entry after its queues and exchange are gone, then makes the calls of initMessages; any failure leaves the registry unchanged and makes no further call |
| `Registries.Registry.DismantleMessage` | message.go:207-227 | deletes the queues in order and then the exchange, for all faults, and makes no call after the first error |
| `Registries.Registry.AddConsumer` | message.go:234-250 | appends one consumer to one message and makes the calls of initMessages, or fails, makes none and changes nothing |
| `Registries.Registry.AppendConsumer` | message.go:245 | the append reaches no other message's consumers |
| `Registries.Registry.UpdateConsumer` | message.go:252-265 | overwrites one consumer in place, leaving every other message and the broker alone, or fails and changes nothing |
| `Registries.Registry.RemoveConsumer` | message.go:277 | the in-place shift removes exactly one consumer of exactly one message |
| `Registries.Registry.DeleteConsumer` | message.go:267-298 | the entry is gone even when a later step fails; for all faults the calls are those of initMessages and then, only if that returned no error, the deletion of the queue; on a reliable broker the queue is gone |
| `Requests.LooksLikeCodeIff` | api.go:193 | a text is taken for a code exactly if some part of it matches `[1-9]\d{1,2}` |
| `Requests.LooksLikeTimeoutIff` | api.go:197 | and for a timeout exactly if some part of it matches `[1-9]\d*` |
| `Requests.GuardAcceptsIff` | api.go:45-282 | the guards of the six handlers accept exactly the acceptable requests |
| `Requests.EditStores` | message.go:165-298 | an accepted request appends, replaces or removes exactly one message or consumer, with the request's own fields, and leaves every other one in its place |
| `Requests.WithoutRemoves` | message.go:229 | a removal keeps the remaining entries in their order |
| `Requests.StoredMessageIsFound` | api.go:65-73 | then the first message of that name has the request's Mode, Token and Comment, and Durable and IsNeedToken exactly if they were "1" |
| `Requests.StoredConsumerIsFound` | api.go:204-212 | and the first consumer of that ID has the request's URL, RouteKey, Timeout, Code and Comment, with CheckCode |
| `Mirrors.EditKeepsRegistryOk` | api.go:45-64 | every request keeps names and IDs unique, Modes legal, and a nonempty Token where one is needed |
| `Establishing.CallEstablishes` | mq.go:48-157 | for every broker and all faults: a declaration or a binding that returns nil has made what it asks for, unless the declaration was misled |
| `Establishing.CallSpares` | mq.go:48-157 | and it takes away, at most, what has its own queue or exchange, whatever its faults delete |
| `Establishing.PlanEstablishes` | message.go:378-410 | a plan in which no call can undo an earlier one leaves everything it asks for, when none of its declarations is misled |
| `Establishing.InitPlanLasts` | message.go:378-410 | the calls of initMessages for an orderly registry are such a plan |
| `Establishing.NilInitConverges` | message.go:378-410 | for every broker and all faults: an initMessages that returns nil leaves every exchange, queue and binding of an orderly registry there, unless a declaration was misled into nil |
| `Mirrors.SameKey` | message.go:375-377 | in such a registry two consumers with one queue are the same consumer |
| `Mirrors.RegistryOkIsConsistent` | message.go:378-410 | such a registry never contradicts itself, so initMessages converges |
| `Mirrors.ReconcileMirrors` | message.go:378-410 | initMessages makes a broker without foreign entities an exact mirror of the registry |
| `Mirrors.DeleteMessageMirrors` | message.go:197-233 | deleting a message succeeds and leaves an exact mirror |
| `Mirrors.DeleteConsumerMirrorsIff` | message.go:267-298 | deleting a consumer leaves an exact mirror exactly when no remaining consumer shares its queue |
| `Mirrors.DeletedConsumerNames` | message.go:267-298 | with IDs of one length, none does |
| `Mirrors.UpdatedConsumerMirrors` | message.go:252-265 | changing a consumer's settings keeps the mirror without touching the broker |
| `Mirrors.HandleKeepsWorldOk` | api.go:30-305 | every request that passes its guard succeeds, and keeps the registry in order and the broker its mirror |
| `Mirrors.RunsMirror` | api.go:30-305 | from any registry in order and its mirror, any sequence of requests leaves exactly the registry's exchanges and queues at the broker |
| `Mirrors.EmptyStartMirrors` | wmq.go:35-43 | a program without a data file and an empty broker start that way |
| `Mirrors.RestartMirrors` | wmq.go:35-43 | so do a registry read from the file and any broker without foreign entities, after the start's initMessages |
| `Mirrors.RegistryStaysInOrder` | api.go:30-305 | from any registry in order, over any run of requests and every pattern of broker failures, names and IDs stay unique and headers legal |
| `Mirrors.SharedQueueBreaksMirror` | message.go:290-291 | with colliding keys, deleting one consumer takes another's queue, whatever mirroring broker one starts from |
| `Bindings.ReconcileBindings` | message.go:378-410 | initMessages drops exactly the bindings of the queues and exchanges that it has to declare again, and adds those of the RouteKeys |
| `Bindings.HandleBindings` | api.go:30-305 | the bindings after one request, exactly |
| `Bindings.BindingThereIff` | api.go:30-305 | over any run from any mirror, a binding is there exactly when it was there at the start or some initMessages made it, and no request since has deleted, or deleted and declared again, its queue or exchange |
| `Bindings.NothingMissingAfterInit` | message.go:395 | after any request that runs initMessages no consumer lacks its binding |
| `Bindings.StaleAndMissing` | message.go:252-265 | for any prefix, name, UUID-length ID and different RouteKeys: after the message and the consumer are added and the RouteKey is changed, the old binding is there and unwanted, and the new one is wanted and not there |
| `Bindings.StaleStays` | message.go:395 | the next request that runs initMessages adds the new binding and leaves the old one |
| `Api.Server.WriteMessagesToFile` | message.go:634-642 | a write fails exactly on a fault, and otherwise stores the registry |
| `Api.Server.LoadMessagesFromFile` | message.go:643-659 | without a fault a stored list is given back exactly; a file that cannot be read gives an empty registry, unreported; a missing file is created empty |
| `Api.HandledFulfils` | api.go:30-305 | every handled request, with any broker, does what its own fields ask for, or changes nothing |
| `Api.HandledMirrors` | api.go:30-305 | on a reliable broker every handler is one step of the runs of Mirrors, keeps what they keep, and succeeds on every acceptable request if the file can be written |
| `Api.HandledStaysInOrder` | api.go:30-305 | with any broker, every handler is one step of such a run |
| `Api.Server.MessageAdd` | api.go:30-79 | what is not acceptable changes nothing and is answered with the error of its guard; what is acceptable succeeds if the file can be written, and then exactly one message with the fields of the request has been appended and the file holds the registry |
| `Api.Server.MessageUpdate` | api.go:80-128 | the same, with exactly the first message of that name replaced, its consumers kept |
| `Api.Server.MessageDelete` | api.go:129-151 | the same, with exactly the first message of that name gone; the broker can stop it |
| `Api.Server.ConsumerAdd` | api.go:165-218 | the same, with exactly one consumer with the fields of the request appended to the first message of that name |
| `Api.Server.ConsumerUpdate` | api.go:219-276 | the same, with exactly the first consumer of that ID in it replaced |
| `Api.Server.ConsumerDelete` | api.go:277-305 | the same, with exactly that consumer gone; the broker can stop it, and its failure can leave the entry gone |
| `Fnv.Fnv32` | map.go:285-293 | the loop computes the hash |
| `Fnv.MultiplyInverse` | map.go:289 | the multiplication step is undone by multiplying with the prime's inverse |
| `Fnv.XorCancels` | map.go:290 | the exclusive-or step is undone by repeating it |
| `Fnv.XorMod` | map.go:290 | exclusive or commutes with taking the low bits |
| `Fnv.HashFromInjective` | map.go:288-291 | different states stay different under the same bytes |
| `Fnv.OneByteApartNeverCollides` | map.go:285-293 | keys that differ in one byte never collide |
| `Fnv.ShardIndexByFiveBits` | map.go:30-32 | the shard index over 32 shards is a recurrence on five bits |
| `ConcurrentMaps.ConcurrentMap.constructor` | map.go:21-27 | an empty map, for any number of shards above zero |
| `ConcurrentMaps.ConcurrentMap.GetShard` | map.go:30-32 | the shard its hash selects |
| `ConcurrentMaps.ConcurrentMap.Set` | map.go:44-50 | one plain map with one key set |
| `ConcurrentMaps.ConcurrentMap.MSet` | map.go:34-41 | the old map overridden by the data, in whatever order the pairs come |
| `ConcurrentMaps.ConcurrentMap.Upsert` | map.go:59-67 | the callback sees the old value, and its result is stored and returned |
| `ConcurrentMaps.ConcurrentMap.SetIfAbsent` | map.go:70-80 | sets exactly when the key was absent, and says so |
| `ConcurrentMaps.ConcurrentMap.Get` | map.go:83-91 | the plain map's value, or none |
| `ConcurrentMaps.ConcurrentMap.Has` | map.go:106-114 | whether the plain map has the key |
| `ConcurrentMaps.ConcurrentMap.Remove` | map.go:117-123 | the plain map without the key |
| `ConcurrentMaps.ConcurrentMap.Pop` | map.go:126-134 | returns the value and removes it |
| `ConcurrentMaps.ConcurrentMap.Count` | map.go:94-103 | the loop over the shards yields the size of the plain map |
| `ConcurrentMaps.ConcurrentMap.IsEmpty` | map.go:137-139 | whether the plain map is empty |
| `MapIteration.StepKeepsInv` | map.go:173-209 | on every schedule a shard's contents at its lock equal unsent, in its channel, held by its forwarder and passed on, together; what was passed on equals `out` and received |
| `MapIteration.SendNeverBlocks` | map.go:184-186 | a snapshot goroutine always finds room in its channel, so its read lock is never held up |
| `MapIteration.ForwardNeverBlocks` | map.go:201-203 | a forwarder always finds room in `out` |
| `MapIteration.OutClosesLast` | map.go:207-208 | `out` closes only when nothing is left anywhere before it |
| `MapIteration.MeasureDecreases` | map.go:158-221 | every step of the iteration makes a lexicographic measure smaller, and writers leave it alone |
| `MapIteration.NeverStuck` | map.go:158-221 | until the call is done some step of it can be taken, whatever the writers do; with the measure, it ends |
| `MapIteration.SnapIsAnInstant` | map.go:181-187 | what a shard sends is what it held at one instant of the call |
| `MapIteration.ReceivedWasPresent` | map.go:212-221 | every tuple received was in the map at some instant of the call |
| `MapIteration.StableIsReceived` | map.go:212-221 | every pair that stays unchanged for the whole call is received |
| `MapIteration.NoKeyTwice` | map.go:212-221 | no key is delivered twice |
| `MapIteration.ItemsIsAWeakSnapshot` | map.go:212-221 | the map that Items returns has every pair that stayed and none that never was, under any writers |
| `MapScans.CountIsBetweenSizes` | map.go:94-103 | with writers that only insert, Count lies between the sizes at its start and its end |
| `MapScans.StepKeepsInv` | map.go:243-271 | the keys received and in the channel are, without repetition, those sent so far |
| `MapScans.MeasureDecreases` | map.go:243-271 | every step of Keys makes a measure smaller, and writers leave it alone |
| `MapScans.NeverStuck` | map.go:243-271 | Keys can always go on, even if the map has outgrown the channel's capacity |
| `MapScans.KeysIsAWeakSnapshot` | map.go:243-271 | Keys returns no key twice, every key that stayed and none that never was |

## Left out

- HTTP serving, JSONP, the API token check, logging, configuration and the log endpoints.
- The HTTP call of `process`: an arbitrary success or failure.
- The body, header and argument encoding between publish and consume.
- RabbitMQ inside: routing, heartbeats, auto-delete, node restarts. `autoDelete` is always the opposite of `durable`, so `durable` stands for both. The deletion of a missing entity fails, as in AMQP 0-9-1; newer RabbitMQ versions accept it.
- Liveness of stop and update: they are not guaranteed. `Blocking.CanGoOnIff` says when the manager can go on, not that it does; no fairness of goroutines or of the broker is assumed.
- Time: `lasttime` values are arbitrary, sleeps take no step.
- Requests are handled one after the other; two concurrent additions of one name are not modelled, nor are unlocked readers such as `publish`.
- The JSON text of the file: the file holds a list. The numbers in a request are taken as already parsed.
- The effect of concurrent workers on the broker's topology: the mirror and the convergence assume that workers do not declare in between.
- The channel pool's closures as calls into the connection pool object: the factory is proved on its own, and any number of its calls keeps the connection pool's leases (`PoolLedger.BorrowsKeepLeases`), but the two pool objects are not composed.
- `restart`, `reload` and `stopAllConsumer` (message.go:411-436): sequences of the caller's stop commands and of initMessages, not members of their own.
- Iter (unbuffered and deprecated), IterCb and MarshalJSON.
- ConcurrentMaps.ConcurrentMap.Count: is one atomic call here; Count against concurrent writers is `MapScans.CountIsBetweenSizes`.
- Registries.Registry.AppendCell: how much room `append` leaves is a parameter, since Go does not fix it.
