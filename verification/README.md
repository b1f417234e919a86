# eventforge: a verified model

This project models the state machines and exact algorithms at the centre of eventforge, an
in-process messaging library, and proves what they guarantee over every input, every interleaving
and every reachable state. `dafny verify dfyconfig.toml` checks all of it.

How the parts relate:

- **Work queue.** `WorkQueueModel` writes every `with self._wq_lock` block of `WorkQueue` as a
  function on the queue's state and builds runs of them: any sequence of blocks by any threads. A
  run also keeps the multiset of dispatch calls that threads still owe after leaving the lock, and
  the state keeps an audit log that no operation reads. The theorems are about runs:
  `WorkQueueInvariants` (well-formed tables), `WorkQueueLedger` and `WorkQueueConservation`
  (nothing lost, nothing invented), `WorkQueueAmplification` (how often one message can be
  delivered, with a measure that every delivery uses up), `WorkQueueChain` (where every message is
  in the end), `WorkQueueSettlement` and `WorkQueueReceipts` (delivery ids),
  `WorkQueueOrder` (first in, first out), `WorkQueueProvenance` (what the log and the messages say is
  true), `WorkQueueDispatch` (no message forgotten),
  `WorkQueueBackpressure`, `WorkQueueReaper`, and `WorkQueueRotation` with the arithmetic in
  `Rotation`. `WorkQueue.dfy` is the object itself, its loops and in-place updates, each method
  proved equal to the model function; its history of blocks ties it to the runs.
- **Limiters.** `TaskPool` and `LeastLoaded` are step models over any number of threads, next to
  the objects whose lock blocks the steps are.
- **Topics and subscriptions.** `TopicPattern` gives the compiled regular expression of the Redis
  transport a meaning of its own and compares it with a recursive matcher, a segment matcher and the
  broker's glob; `RedisTransport` adds the reference counts. `SubscriptionTables` compares the
  in-memory transport's reverse index with the TCP transport's scan, with callbacks that change the
  tables in the middle of a send; `MemoryTransport.dfy` and `TcpTransport.dfy` are the objects.
  `MessageQueueModel` and `MessageQueue.dfy` are the topic channels on top.
- **Protocols.** `Framing` (length-prefixed messages over any chunking), `RpcModel` and `Rpc.dfy`
  (request and reply), `TaskLifecycle` (observers that raise), `RoundRobin`.

Conventions. A uuid4 value is a number from a counter, or for RPC a string not used before: all that
is used of it is that it is new. A dictionary whose insertion order matters is a sequence. A
Python exception is a result value. Times are real numbers chosen freely.

Where the code and its documentation differ, the model follows the code:

- `_dead_letter` never dispatches, so consumers of a dead-letter topic are not told about a message
  buried there; `NoLostDispatchExactly` shows that this is the only exception.
- A retried message goes out to all groups of its topic again, not only to the one that failed;
  `BoundedAmplification` accounts for it.
- `max_work_queue_size` limits what `enqueue` may add to, not the length of the queue;
  `LengthIsBoundedExactly` says when it limits the length too.
- `$` in the Redis matcher lets one final newline through, which the broker's glob does not;
  `PrefilterIsCompleteExactly` says for which patterns this matters.
- The TCP transport ignores a subscription to the empty pattern, the in-memory one does not;
  `SendsAgreeExactly` says exactly when the two differ and `EmptyPatternMakesTheDifference` gives a run.
- An RPC client takes an error with an empty text for success; `ClientsGetTheirOwnResult` gives the
  exact condition and `EmptyErrorLooksLikeSuccess` a run.
- An RPC request that is a dictionary with a non-string "id" and fails validation gets no reply,
  because building the error response fails too; `OneResponsePerHandling` has the exact condition and
  `NumberAsIdGetsNoReply` a run.

## Model

| member | source | states |
|---|---|---|
| `WorkQueueInvariants.RunShape` | eventforge/work_queue.py:129-422 | In every run: no stored group is empty, each group lists its registered ids once, pending messages carry no delivery id, in-flight entries hold the unstamped message, have increasing ids, and a retry count equal to the message's header and at most max(0, max_retries - 1) |
| `WorkQueueInvariants.HeadIsTaken` | eventforge/work_queue.py:358-383 | When no group is empty the put-back branch is never taken: the head of the queue goes to every group, one entry and one call each |
| `WorkQueueInvariants.MembersAfterDrop` | eventforge/work_queue.py:283-296 | Removing a consumer takes exactly that id out of exactly its own group and leaves all other groups alone |
| `WorkQueueLedger.RunPend` | eventforge/work_queue.py:138-462 | In every run, for every topic and every weight on messages, what is pending is what the log put there less what it took |
| `WorkQueueLedger.RunFlight` | eventforge/work_queue.py:223-462 | In every run, for every weight on entries, what is in flight is what was delivered less what was acked, nacked, expired or cleared |
| `WorkQueueConservation.Conservation` | eventforge/work_queue.py:138-462 | For every run, topic and payload: pending + in flight + acked + buried + dropped by close = accepted + arrived as dead letter + added by fan-out |
| `WorkQueueConservation.DispatchFansOutExactly` | eventforge/work_queue.py:353-383 | In every run a dispatch takes each pending message, in order, to each of the topic's k groups exactly once with its payload unchanged: itself if k = 1, else copies with different ids |
| `WorkQueueOrder.FirstInFirstOut` | eventforge/work_queue.py:138-203 | Between any two points of any run in which nothing came back to the topic and close did not clear it: what was queued, then what was accepted or buried into it, equals what was handed out, then what is queued, in order |
| `WorkQueueReceipts.DequeueGivesReceipt` | eventforge/work_queue.py:201-203 | In every run a pulled message is the head of the queue and carries a delivery id that was not in flight and under which the table now holds that message without the stamp |
| `WorkQueueReceipts.DispatchGivesReceipts` | eventforge/work_queue.py:372-379 | In every run the same holds of the message of each handler call of a dispatch, and no two calls carry the same id |
| `WorkQueueReceipts.AckSettles` | eventforge/work_queue.py:223-227 | In every run an ack of a delivery in flight takes out exactly that entry and changes nothing else |
| `WorkQueueReceipts.AckUndoesDequeue` | eventforge/work_queue.py:201-227 | Pulling a message and acking the id it carries leaves the in-flight table as it was |
| `WorkQueueReceipts.NackSettles` | eventforge/work_queue.py:246-267 | In every run a nack takes out exactly that entry; with a requeue asked for and retries left its message, one retry older, is the first of its queue, else a copy with a new id and the right reason is the last of the dead-letter queue; no other queue changes |
| `WorkQueueProvenance.LogIsTrue` | eventforge/work_queue.py:112-462 | Every event the theorems count is what one action of the run did, in the state it found: acceptances are enqueues with their payload and timeout, burials fit their reason, and so on |
| `WorkQueueProvenance.BuriedForAReason` | eventforge/work_queue.py:261-267 | In every run a message resting with a dead-letter reason was buried for it: nack_no_requeue only by a nack without requeue that had retries left, max_retries_exceeded only by a nack that had none, visibility_timeout_exceeded only by a sweep of an overdue entry that had none |
| `WorkQueueProvenance.NobodyRefusedRequeue` | eventforge/work_queue.py:262-266 | A run whose nacks all ask for a requeue holds nothing marked nack_no_requeue |
| `WorkQueueProvenance.CarriedUnchanged` | eventforge/work_queue.py:112-124 | In every run a message keeps the topic it was enqueued on and the timeout given, or the default, through retries, fan-out and burial; each delivery is overdue exactly from its hand-out plus that timeout on |
| `WorkQueueConservation.BurialsArrive` | eventforge/work_queue.py:402-422 | What leaves a topic as a dead letter arrives on its dead-letter topic, and nothing else does |
| `WorkQueueConservation.NothingArrivesElsewhere` | eventforge/work_queue.py:402-422 | Nothing arrives as a dead letter on a topic whose name does not end in ".dead_letter" |
| `WorkQueueChain.ChainConservation` | eventforge/work_queue.py:402-422 | Conservation summed along the nested dead-letter topics of any topic, to any depth: what rests there or went deeper is what entered from outside or arrived on the first |
| `WorkQueueConservation.RunFanOut` | eventforge/work_queue.py:354-383 | From any point on, while a topic has at most n groups, no message taken from it is delivered to more than n |
| `WorkQueueChain.EveryMessageIsInOnePlace` | eventforge/work_queue.py:138-462 | With at most one group per topic, every payload accepted on one topic only, be that a dead-letter topic, is for each time it was accepted in exactly one place: pending, in flight, acked, or the same on a nested dead-letter topic, or dropped by close |
| `WorkQueueAmplification.PotentialIsPaidDown` | eventforge/work_queue.py:251-267 | The termination measure: between any two points of a run with at most G >= 1 groups on the topic in between, deliveries made plus potential left grow by at most G + ... + G^M for each message that entered, M = max(1, max_retries), whatever is dispatched, dequeued, nacked or expired |
| `WorkQueueAmplification.RedeliveryEnds` | eventforge/work_queue.py:358-379 | From any point of any run on, as long as nothing new enters, at most the potential at that point is delivered |
| `WorkQueueAmplification.BoundedAmplification` | eventforge/work_queue.py:445-462 | Over a whole run, deliveries made plus potential left are at most (G + ... + G^M) times the messages entered |
| `WorkQueueAmplification.NothingArrivesAbove` | eventforge/work_queue.py:402-422 | What is enqueued on one topic only never arrives there, nor on any topic with as short a name, however many groups there are |
| `WorkQueueAmplification.OneEnqueueIsBounded` | eventforge/work_queue.py:327-347 | One enqueue on any topic, of a payload accepted nowhere else, causes at most G + G^2 + ... + G^M deliveries there |
| `WorkQueueSettlement.SettledAtMostOnce` | eventforge/work_queue.py:223-455 | At every point of every run a delivery id that was issued is in flight or settled once by ack, nack, reaper or close, never both; ids are issued at most once |
| `WorkQueueSettlement.StaleIdsAreInert` | eventforge/work_queue.py:223-249 | Once settled, an id is never in flight again and acking or nacking it changes nothing, however the run goes on |
| `WorkQueueDispatch.DispatchDrains` | eventforge/work_queue.py:349-383 | In well-formed states a dispatch on a topic with a group leaves nothing pending there, and leaves other topics and all groups alone |
| `WorkQueueDispatch.NoLostDispatch` | eventforge/work_queue.py:129-472 | In every interleaving, an ordinary topic with a consumer group and pending messages has a thread that still owes it a dispatch |
| `WorkQueueDispatch.QuiescentMeansDrained` | eventforge/work_queue.py:467-472 | Once no dispatch is owed, ordinary topics with consumers have nothing pending |
| `WorkQueueDispatch.NoLostDispatchExactly` | eventforge/work_queue.py:402-422 | The guarantee holds of a topic in all legal interleavings if and only if its name does not end in ".dead_letter" |
| `WorkQueueBackpressure.FreshIsBounded` | eventforge/work_queue.py:129-138 | With max_work_queue_size > 0 an ordinary topic never holds more than that many never-delivered messages, whatever is requeued |
| `WorkQueueBackpressure.FreshIsBoundedExactly` | eventforge/work_queue.py:421-421 | That bound holds of a topic in every run if and only if it is no dead-letter topic |
| `WorkQueueBackpressure.LengthIsBoundedExactly` | eventforge/work_queue.py:251-258 | The limit bounds the whole length of an ordinary queue in every run if and only if max_retries <= 1 |
| `WorkQueueReaper.SweepExactly` | eventforge/work_queue.py:439-462 | A sweep removes exactly the entries whose age reached their timeout, keeps the others in order, and makes each queue the retried ones in reverse delivery order, then the old queue, then the newly buried ones in delivery order |
| `WorkQueueRotation.RosterIsLiveInOrder` | eventforge/work_queue.py:167-169 | In every run each group lists exactly the ids registered under it and not yet removed, once, in registration order |
| `WorkQueueRotation.RegisteredJoins` | eventforge/work_queue.py:164-169 | In every run a new consumer becomes the last of the group it names, or of the default group, and no other group changes |
| `WorkQueueRotation.RemovedIsGone` | eventforge/work_queue.py:283-296 | In every run a removed consumer is in no group and not in the registry, and everybody else stays where they were |
| `WorkQueueRotation.CallsRotate` | eventforge/work_queue.py:373-375 | While the members of a group stay the same, whatever happens to other groups, the i-th call to it goes to member (start + i) mod n |
| `WorkQueueRotation.CallsAreFair` | eventforge/work_queue.py:373-379 | While the members of a group stay the same, k calls give each of n members floor(k/n) or ceiling(k/n) |
| `Rotation.QueueTakesTurns` | eventforge/work_queue.py:373-375 | The index the queue stores chooses start + i mod n |
| `Rotation.DispatcherTakesTurns` | eventforge/observers.py:201-203 | So does the ever-growing index of the round-robin dispatcher |
| `Rotation.ClientTakesTurns` | eventforge/rpc.py:271-275 | So does the wrapped index of the round-robin RPC client |
| `Rotation.FairShare` | eventforge/observers.py:183-187 | Any k turns over n places, from any start, give each place floor(k/n) or ceiling(k/n) |
| `Rotation.SharesAreEven` | eventforge/observers.py:183-187 | After q rounds and r turns each place had q, plus one exactly if its first turn was among the first r |
| `RoundRobin.RoundRobinDispatcher.Choose` | eventforge/observers.py:199-203 | The object's n-th choice is place n mod the number of subscribers; without subscribers nothing happens |
| `RoundRobin.RoundRobinClient.NextClient` | eventforge/rpc.py:271-275 | The n-th call goes to client n mod the number of clients |
| `WorkQueueObject.WorkQueue.Stands` | eventforge/work_queue.py:74-86 | At any time the object is where the model is after the blocks executed so far, so the theorems about runs hold of it: shape, conservation, settlement |
| `WorkQueueObject.WorkQueue.Put` | eventforge/work_queue.py:112-139 | The locked block of enqueue: the message, with its payload and the id returned, is the last of the queue; or rejected, changing no queue, exactly if a limit is set and reached |
| `WorkQueueObject.WorkQueue.EnqueueAndDispatch` | eventforge/work_queue.py:129-142 | An undisturbed enqueue is the append followed by the dispatch; it returns the new id and the handler calls that the dispatch logged |
| `WorkQueueObject.WorkQueue.Register` | eventforge/work_queue.py:164-172 | consume: group list and registry gain the new id |
| `WorkQueueObject.WorkQueue.Remove` | eventforge/work_queue.py:283-296 | remove_consumer: afterwards the id is in no group and not registered; the group and its index go when the last member goes; true exactly for registered ids |
| `WorkQueueObject.WorkQueue.MarkInFlight` | eventforge/work_queue.py:327-347 | The stored message is unstamped, the returned copy carries the delivery id |
| `WorkQueueObject.WorkQueue.Poll` | eventforge/work_queue.py:196-207 | One pass of dequeue: nothing exactly if closed or empty, else the head, stamped with a delivery id that the table now holds it under |
| `WorkQueueObject.WorkQueue.Acknowledge` | eventforge/work_queue.py:223-227 | True exactly for ids in flight; exactly that entry leaves the table and no queue changes |
| `WorkQueueObject.WorkQueue.Reject` | eventforge/work_queue.py:245-272 | The locked block of nack is the model's, true exactly for ids in flight, and names the topic its caller owes a dispatch |
| `WorkQueueObject.WorkQueue.Bury` | eventforge/work_queue.py:402-422 | A copy with a new id, the reason and the dead-letter topic is appended there |
| `WorkQueueObject.WorkQueue.TryDispatch` | eventforge/work_queue.py:349-383 | The locked block is the model's dispatch; the handlers to run are the logged calls, each with a message stamped with a delivery id of its own that the table now holds it under |
| `WorkQueueObject.WorkQueue.HandOutAll` | eventforge/work_queue.py:358-383 | The outer loop with its put-back branch computes that |
| `WorkQueueObject.WorkQueue.HandOut` | eventforge/work_queue.py:362-379 | The inner loop: one in-flight entry, one rotation step and one handler call per group |
| `WorkQueueObject.WorkQueue.Reap` | eventforge/work_queue.py:435-465 | The reaper's locked block is the sweep, and returns the topics that were given retries |
| `WorkQueueObject.WorkQueue.RetryOrBury` | eventforge/work_queue.py:445-462 | The second loop retries or buries each expired entry in order |
| `WorkQueueObject.WorkQueue.DeleteOverdue` | eventforge/work_queue.py:440-443 | Deleting from the table while walking a snapshot leaves exactly the entries not overdue |
| `WorkQueueObject.WorkQueue.Shut` | eventforge/work_queue.py:313-313 | close first marks the queue closed, which only dequeue looks at |
| `WorkQueueObject.WorkQueue.Discard` | eventforge/work_queue.py:317-321 | close empties queues, in-flight table, groups and registry; the rotation indexes stay |
| `TopicPattern.Compile` | eventforge/transports/redis.py:59-70 | The loop produces, left to right, the parts of the expression that the pattern stands for |
| `TopicPattern.CompiledIsGlob` | eventforge/transports/redis.py:59-71 | The compiled expression accepts a word (some way of cutting it suits the parts) if and only if the recursive matcher does |
| `TopicPattern.MatchesIsGlob` | eventforge/transports/redis.py:57-71 | On every topic and pattern the matcher is the recursive one, up to one final newline |
| `TopicPattern.ShortcutIsRedundant` | eventforge/transports/redis.py:57-58 | The pattern == topic shortcut never changes the answer |
| `TopicPattern.MatchesIsSegmentwise` | eventforge/transports/redis.py:57-71 | For a pattern without `**`: matches if and only if both split into equally many segments that match one by one (up to one final newline) |
| `TopicPattern.TwoStarsSpan` | eventforge/transports/redis.py:62-71 | A pattern a, `**`, b matches exactly a, then any text without a newline, dots included, then b (up to one final newline) |
| `TopicPattern.TopicMatches` | eventforge/transports/redis.py:51-71 | The method computes exactly this |
| `TopicPattern.PrefilterIsComplete` | eventforge/transports/redis.py:42-48 | Whatever matches locally passes the broker's glob, for patterns without `?`, `[` and backslash and topics not ending in a newline |
| `TopicPattern.PrefilterIsCompleteExactly` | eventforge/transports/redis.py:42-71 | For every pattern without `?`, `[` and backslash: the prefilter is complete on all topics whatsoever if and only if the pattern, without the newlines at its end, ends in a star |
| `RedisTransport.CountedAfterSubscribe` | eventforge/transports/redis.py:117-121 | Counting a new subscription keeps every count equal to the number of users and the broker's set equal to the counted globs |
| `RedisTransport.CountedAfterUnsubscribe` | eventforge/transports/redis.py:123-134 | So does dropping one; the glob is given up with its last user |
| `RedisTransport.CountedAfterQueue` | eventforge/transports/redis.py:135-142 | So does the first receive on a topic |
| `RedisTransport.Transport.Psubscribe` | eventforge/transports/redis.py:117-121 | The count rises; the broker is asked only on the first use |
| `RedisTransport.Transport.Punsubscribe` | eventforge/transports/redis.py:123-134 | The count falls; the broker is asked only when it reaches zero |
| `RedisTransport.Transport.Subscribe` | eventforge/transports/redis.py:214-224 | A new id at the end, counts and broker kept exact; refused once closed |
| `RedisTransport.Transport.Unsubscribe` | eventforge/transports/redis.py:226-235 | Exactly that id goes, the others stay in order, counts and broker kept exact |
| `RedisTransport.Transport.EnsureQueue` | eventforge/transports/redis.py:135-142 | The topic is counted as a user once, however often it is received from |
| `RedisTransport.Transport.Dispatch` | eventforge/transports/redis.py:171-180 | Calls exactly the live subscriptions whose pattern matches, once each, in subscription order |
| `RedisTransport.Transport.Close` | eventforge/transports/redis.py:237-249 | All tables and the broker's set are empty |
| `RedisTransport.Transport.NoSubscriberIsMissed` | eventforge/transports/redis.py:42-71 | In every valid state, a topic that matches a live subscription (whose pattern has no `?`, `[` or backslash) is covered by a glob that the broker holds, unless the topic ends in a newline and the pattern is not of the kind that lets it through |
| `RedisTransport.Transport.SubscribedWhileUsed` | eventforge/transports/redis.py:117-142 | In every valid state the broker holds a glob if and only if a live subscription or receive topic maps to it |
| `SubscriptionTables.MapsStayInverse` | eventforge/transports/memory.py:102-126 | After any run the three maps are mutually inverse and list subscriptions in the order they were made, whatever callbacks do during sends, nested sends included |
| `SubscriptionTables.SubscribeStarts` | eventforge/transports/memory.py:107-112 | A new subscription is the last in line under a new id with its own pattern and callback; the others are as before |
| `SubscriptionTables.UnsubscribeEnds` | eventforge/transports/memory.py:116-126 | A cancelled subscription is in none of the maps, and no other is touched |
| `SubscriptionTables.IndexAgreesWithScan` | eventforge/transports/memory.py:58-64 | For non-empty patterns any run makes the same calls in the same order and leaves the same tables as the scanning transport |
| `SubscriptionTables.SendsAgreeExactly` | eventforge/transports/tcp.py:176-186 | In every reachable state a send with quiet callbacks calls the matching subscriptions once each in the order they were made, and the scan agrees if and only if no live empty pattern matches |
| `SubscriptionTables.EmptyPatternMakesTheDifference` | eventforge/transports/tcp.py:182-184 | A run in which a subscription to the empty pattern is called by the in-memory transport and ignored by the other |
| `SubscriptionTables.TheGoneAreNotCalled` | eventforge/transports/memory.py:58-64 | A subscription that has ended is never called again, not even by a send already under way |
| `SubscriptionTables.ScanIsLookup` | eventforge/transports/tcp.py:178-181 | With inverse maps the scan finds what the index says |
| `SubscriptionTables.RemoveFirstIsRemoveAt` | eventforge/transports/tcp.py:228-231 | Removing from the first list that holds an id is removing from the list of the topic the scan finds |
| `MemoryTransportObject.MemoryTransport.Register` | eventforge/transports/memory.py:107-112 | All three maps gain the new id |
| `MemoryTransportObject.MemoryTransport.Cancel` | eventforge/transports/memory.py:116-126 | All three maps lose the id; true exactly for live ids |
| `MemoryTransportObject.MemoryTransport.Publish` | eventforge/transports/memory.py:58-64 | The loop over the snapshot with the index looked up at each turn, callbacks included |
| `TcpTransportObject.TcpTransport.Register` | eventforge/transports/tcp.py:216-221 | Both maps gain the new id |
| `TcpTransportObject.TcpTransport.Cancel` | eventforge/transports/tcp.py:223-232 | The id goes from the subscribers and from the first list that holds it |
| `TcpTransportObject.TcpTransport.FindTopic` | eventforge/transports/tcp.py:177-181 | The inner loop finds the first topic listing the id |
| `TcpTransportObject.TcpTransport.Deliver` | eventforge/transports/tcp.py:173-186 | The outer loop over the snapshot, callbacks included |
| `MessageQueueModel.TableMatchesChannels` | eventforge/queue.py:106-148 | In every interleaving of the lock blocks each channel holds each function once per live id (plus threads midway through subscribe or unsubscribe), each topic has one transport subscription firing its channel, and unsubscribe succeeds exactly for live ids |
| `MessageQueueModel.PublishReachesEachLiveHandler` | eventforge/queue.py:126-130 | With handlers that do not raise, one publish runs each function exactly once per live id on every matching topic |
| `MessageQueueModel.PublishReachesAllExactly` | eventforge/observers.py:172-179 | A publish reaches every handler if and only if, on each matching channel, nobody but the last handler raises |
| `MessageQueueModel.FiredExactly` | eventforge/observers.py:178-179 | A broadcast runs all its subscribers if and only if none before the last raises |
| `MessageQueueObject.Eventful.Add` | eventforge/observers.py:337-341 | One more entry at the end, duplicates included |
| `MessageQueueObject.Eventful.Drop` | eventforge/observers.py:346-352 | The first entry of the function goes; true exactly if there was one |
| `MessageQueueObject.Eventful.Fire` | eventforge/observers.py:354-361 | Runs subscribers in order up to and including the first that raises |
| `MessageQueueObject.MessageQueue.GetTopic` | eventforge/queue.py:65-74 | Channel and transport subscription are made on first use only |
| `MessageQueueObject.MessageQueue.Subscribe` | eventforge/queue.py:106-115 | The three blocks in sequence; the id returned is live with this topic and function, and the function is on the channel |
| `MessageQueueObject.MessageQueue.Unsubscribe` | eventforge/queue.py:138-148 | The id and one entry of its function go |
| `MessageQueueObject.MessageQueue.Publish` | eventforge/queue.py:126-130 | The functions run are those of the matching channels, channel by channel |
| `TaskPool.StepBalances` | eventforge/task.py:88-105 | Every step of any thread keeps: semaphore value + granted + running + unwinding + releasing = max_instances, active = running + unwinding, queued = threads inside acquire |
| `TaskPool.PoolIsSafe` | eventforge/task.py:276-289 | In every interleaving bodies running never exceed the limit, no counter is negative, and when all threads are out, by return, exception or timeout, all slots are back |
| `TaskPool.NoSlotIsLost` | eventforge/task.py:88-105 | A waiting thread can be granted a slot or some thread holding one can move on |
| `TaskPool.ProcessedCountsBodies` | eventforge/task.py:100-104 | The processed counter is the number of bodies finished |
| `TaskPool.Pool.Create` | eventforge/task.py:67-76 | Fewer than one instance is refused; otherwise all slots are free |
| `TaskPool.Pool.BeginAcquire` | eventforge/task.py:88-89 | First locked block of acquire |
| `TaskPool.Pool.TakeUnit` | eventforge/task.py:91-91 | The semaphore: granted exactly if a unit is left |
| `TaskPool.Pool.EndAcquire` | eventforge/task.py:93-98 | Second locked block of acquire |
| `TaskPool.Pool.BeginRelease` | eventforge/task.py:102-104 | Locked block of release |
| `TaskPool.Pool.ReturnUnit` | eventforge/task.py:105-105 | The semaphore gets its unit back |
| `TaskPool.Acquire` | eventforge/task.py:88-98 | Undisturbed: a slot taken and counted as active, or nothing changed |
| `TaskPool.Release` | eventforge/task.py:100-105 | Undisturbed: the slot is back and one more is processed |
| `TaskPool.RunBody` | eventforge/task.py:275-289 | Undisturbed, with a pool or without: run returns what the body returns and raises what it raises, or raises a timeout exactly if no slot is free; the body runs with one slot taken, and on each exit the slots are as before |
| `LeastLoaded.SortedSorts` | eventforge/observers.py:255-255 | The stable sort lists every position once, by load, ties by position |
| `LeastLoaded.Select` | eventforge/observers.py:246-261 | Without concurrent change: reserves a slot on the first least loaded node, and fails, changing nothing, exactly if all are full |
| `LeastLoaded.Node.Capacity` | eventforge/observers.py:502-505 | One slot per GPU, else a quarter of the CPUs rounded down, but at least one |
| `LeastLoaded.Node.Load` | eventforge/observers.py:507-510 | The used fraction of the capacity, below 1 exactly if a slot is free |
| `LeastLoaded.Node.TryAcquire` | eventforge/observers.py:521-525 | A slot is taken exactly if one is free |
| `LeastLoaded.Node.Release` | eventforge/observers.py:527-531 | One slot back, never below zero |
| `LeastLoaded.ReservationsAreSafe` | eventforge/observers.py:254-300 | In every interleaving, with any number of dispatchers sharing nodes: in_flight is the calls held and at most capacity, and "saturated" is raised only after each candidate was seen full in that selection |
| `LeastLoaded.EverySlotComesBack` | eventforge/observers.py:276-300 | In every interleaving, when all calls have ended, each by a handler that returned or raised and the finally block after it, every node is free |
| `LeastLoaded.Route` | eventforge/observers.py:276-283 | Undisturbed: the handler of the first least loaded node runs with its slot held, its value or exception comes out, and on either exit every node is as before; raises "saturated" exactly if all are full |
| `LeastLoaded.Dispatch` | eventforge/observers.py:291-300 | The same, but the handler's exception is swallowed, and nothing happens without subscribers |
| `Framing.HeaderRoundTrip` | eventforge/transports/tcp.py:34-40 | Packing and unpacking a length below 2^32 is the identity |
| `Framing.HeadersCompare` | eventforge/transports/tcp.py:34-40 | Network byte order: headers compare, first byte first, as the lengths they stand for |
| `Framing.RoundTrip` | eventforge/transports/tcp.py:38-62 | Any list of payloads below 2^32 bytes is decoded from its frames as it was |
| `Framing.CutStream` | eventforge/transports/tcp.py:43-62 | A stream cut at any byte yields exactly the payloads whose frames are complete |
| `Framing.CompleteIsMaximal` | eventforge/transports/tcp.py:43-62 | The number of complete frames is the largest k whose frames fit before the cut |
| `Framing.Socket.SendMsg` | eventforge/transports/tcp.py:38-40 | One frame is sent, or packing fails from 2^32 bytes on |
| `Framing.Socket.RecvExact` | eventforge/transports/tcp.py:43-53 | Over any chunking: exactly the first n bytes, or nothing if fewer come |
| `Framing.Socket.RecvMsg` | eventforge/transports/tcp.py:56-62 | The first payload, or nothing if its frame is incomplete |
| `Framing.Socket.RecvAll` | eventforge/transports/tcp.py:154-161 | Repeated receiving decodes the whole stream, whatever the chunking |
| `RpcModel.RepliesAreCorrelated` | eventforge/rpc.py:97-143 | In every run in which no other sender names `_rpc_reply.<id>` as its reply topic, all replies there answer the request of call id and carry its id; the client has the first of them, the rest wait in order |
| `RpcModel.ForgedReply` | eventforge/rpc.py:101-113 | Without that condition it fails: a run that puts a reply with another id on the topic of a call |
| `RpcModel.OneResponsePerHandling` | eventforge/rpc.py:97-143 | In every run a finished handling has published exactly one response if the message names a reply topic and is no invalid dictionary with a non-string id, and none otherwise |
| `RpcModel.NumberAsIdGetsNoReply` | eventforge/rpc.py:101-113 | A run in which such a dictionary, asking for a reply on any topic, is handled and gets none |
| `RpcModel.InvalidIsAnswered` | eventforge/rpc.py:101-114 | In every run any other invalid message that asks for a reply gets one, under its own string id if it has one and else as "unknown", which a client reads as a ValidationError |
| `RpcModel.CallsAreAsMade` | eventforge/rpc.py:178-190 | In every run the method and arguments on record for a call are those the client gave |
| `RpcModel.ClientsGetTheirOwnResult` | eventforge/rpc.py:178-204 | In every run in which no other sender names its reply topic, an answered call was answered by a handling of its own request; it returns exactly if the method returned (that value) or raised with an empty text (None), and else raises what was reported |
| `RpcModel.EmptyErrorLooksLikeSuccess` | eventforge/rpc.py:200-204 | A run in which a client returns None for a method that raised |
| `RpcObject.RPCServer.Add` | eventforge/rpc.py:56-59 | The name is bound to the function |
| `RpcObject.RPCServer.HandleRequest` | eventforge/rpc.py:97-143 | The branches publish exactly the model's reply; for a bound method and a reply topic that is one reply there, with the request's id, in which a client finds what the function did with the request's arguments: its value, or its exception (None if that has no text) |
| `RpcObject.CallWithRetry` | eventforge/rpc.py:318-332 | Ends with the first try that is no retryable error or with try max_retries + 1, after one sleep per retry, each factor times the last |
| `TaskLifecycle.ChannelsFired` | eventforge/task.py:317-376 | Whoever raises: start alone if a start observer raised, else start, the one of success and failure the body decided, and complete, once each |
| `TaskLifecycle.ValueOnlyIfNothingRaised` | eventforge/task.py:317-376 | A value is returned if and only if the body gave one and no observer raised; then all observers ran |
| `TaskLifecycle.ReturnedIsBodysValue` | eventforge/task.py:322-374 | The value is the body's unless a success observer replaced it |
| `TaskLifecycle.LastExceptionComesOut` | eventforge/task.py:317-376 | The exception that comes out is that of complete, else of the verdict's observers, else the body's; or of start |
| `TaskLifecycle.FirstOnesSee` | eventforge/task.py:323-361 | The first start observer sees an empty context; the first success observer sees the body's value and the task ended, the first failure observer the body's exception and the task ended, the rest as start observers left it |
| `TaskLifecycle.FirstOnesAreCalled` | eventforge/task.py:317-361 | These are called if there are any, the verdict's unless a start observer raised |
| `TaskLifecycle.EveryoneSeesTheError` | eventforge/task.py:327-376 | While observers leave the error alone, every failure and complete observer of a failed task sees the body's exception |
| `TaskLifecycle.SendsOnce` | eventforge/task.py:339-375 | The result is sent, once, on the verdict's topic, between the verdict's observers and complete, exactly if there is a queue and neither start nor verdict observers raised |
| `TaskLifecycle.BroadcastIsOrdered` | eventforge/observers.py:178-179 | A firing calls a prefix of the observers in order, all of them if none raises |
| `TaskLifecycle.BroadcastPassesOn` | eventforge/observers.py:178-179 | Each observer sees the context as the one before left it; only the last call can have raised, and that is what comes out |
| `TaskLifecycle.TaskRunner.Fire` | eventforge/observers.py:354-361 | The loop performs one such firing |
| `TaskLifecycle.TaskRunner.RunBody` | eventforge/task.py:319-374 | try, except and else: verdict observers, then publishing unless they raised, then the outcome |
| `TaskLifecycle.TaskRunner.Execute` | eventforge/task.py:317-376 | The whole execution: the trace of events, and the last exception raised or else the result |

## Left out

- Sockets, accept and receive threads, the Redis client and its listening loop, asyncio variants: input and output. A byte stream is ideal and arrives in any pieces; the broker obeys PSUBSCRIBE and PUNSUBSCRIBE and delivers to matching globs.
- eventforge/transports/nats.py: its matcher repeats the Redis one and its subjects depend on the broker.
- The fnmatch-based matchers of the in-memory and TCP transports: the matcher is a parameter.
- Patterns with `?`, `[` or a backslash at the Redis broker: only `*` of the broker's glob language is modelled.
- The bounded per-topic queues behind `receive`, and the error when one is full; RPC reply queues are unbounded.
- Waiting: `dequeue` is modelled one pass at a time, timeouts happen at any moment or not at all.
- Callers' own `_wq_*` headers: they would overwrite the queue's; the model has none.
- The times written into `_wq_enqueued_at` and `_wq_dead_lettered_at`, which nothing reads.
- Keys that a defaultdict creates when it is only read; an absent key and an empty list are the same here.
- WorkQueueObject.WorkQueue.Poll: one pass only; the wait between passes and the deadline are not modelled.
- RedisTransport.Transport.Dispatch: callbacks that change the subscriptions during the dispatch are modelled for the in-memory and TCP transports only.
- RedisTransport.Transport.Close: threads that use the transport while it closes are not modelled.
- MessageQueueObject.MessageQueue.Publish: handlers leave the queue alone while it publishes, channels broadcast, and the transport serves this queue only.
- LeastLoaded.Route: the handler leaves the nodes alone; what other threads do meanwhile is in the interleaving model.
- LeastLoaded.Dispatch: the same; the log line about a handler's exception is not modelled.
- LeastLoaded.Select: subscribers are nodes; subscribers that only report a load, and calling a node directly, are not modelled.
- TaskLifecycle.TaskRunner.Execute: SEQUENTIAL mode only; the THREAD and PROCESS branch, whose failed bodies look like successes, is not modelled. Exceptions are ordinary ones.
- TaskPool.Pool.TakeUnit: one try at the semaphore; the wait before a grant or a timeout is the time between two steps of the interleaving model.
- `Executor`, meters and reporters, class-level observers, `RemoteQueue`, the worker command, JSON encoding and validation: wrappers, reflection or easy aggregates. Whether a payload is a valid request is part of the payload.
