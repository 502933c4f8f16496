# FedLearner trainer, channel and data-join model

This project models the parts of FedLearner whose correctness is hardest to see from the code, and proves what they
promise.  Code that updates objects, lists or arrays step by step is modelled by classes and methods; concurrency is
modelled by state machines whose runs interleave the atomic steps of all parties in any order, with crashes, lost and
repeated messages.

* **Sparse embeddings.**  `FeatureIds` is the layout of 64-bit feature ids.  `SlotPlanner` is the dynamic program that
  packs feature slots into shared weight tables: the plan is optimal among *all* groupings, contiguous or not, the walk
  back over the marks never goes wrong, and the resulting layout tiles tables and output columns.  `Partition` and
  `EmbeddingKernels` are the kernel that partitions and de-duplicates ids; its consistency checks cannot fail.  `Sums`,
  `Pooling` and `EmbeddingLookup` are the pooling and un-pooling kernels: the sharded lookup equals the undivided one and
  the gradient is its adjoint, also end to end over all shards.  `LookupLaws` reads both off the batch: what every column
  of a slot and every slice of an id holds.
* **Reliable bridge.**  `ResendQueue` is the resend queue over streams that break while their contents may still be
  delivered, `StreamCalls` the succession of stream calls with a queue each, `Bridge` the start/data/commit protocol above
  them, `ReliableBridge` all of it together, from the calls of one application to what the other receives.  `Channel` is
  the connect and close handshake, `ChannelLaws` what the states mean and when no channel fails.
* **Federated averaging.**  `FedAvg` is the leader's accumulator and its handlers, `FedAvgRounds` the rounds of one leader
  and any set of followers, with repeated and late requests and lost replies, `FedAvgProgress` when a round can be
  completed.
* **Data join.**  `ExampleIdDumper` is the crash-tolerant dumper with its anchor, `DumpRounds` what its rounds achieve,
  `Visitor` the cursor over a growing list
  of files, `PublishLog` the multi-writer log built on compare-and-set, `ItemBatchQueue` the batch queue with its
  remembered place.  `Synchronization` puts the queue and the dumper together: whatever crashes, the peer's files are
  exactly the leader's items.
* **Epoch allocation.**  `EpochAllocator` hands out shuffled data blocks with dump and restore.

`Permutations` holds two facts about sequences with the same elements, `Concatenation` what is needed about sequences laid
end to end, and `Wrappers` the optional value.  `dafny verify dfyconfig.toml` checks everything.

## What the code does not do

Some expected properties are false of the code; the model keeps the code as it is and says exactly when they hold.

* A resend queue whose stream answers before it has read a request reports acknowledgement 0 and can drop a request
  unread, sent or not (`ResendQueue.EarlyAnswerLosesRequest`).  `ResendQueue.HarmlessAcknowledgement`: an
  acknowledgement loses nothing exactly when it is ignored or names a request that is both sent and read.
* The bridge tolerates resends exactly when no name is sent with two payloads in one iteration:
  `Bridge.ExactlyOnce` and, conversely for every log without that property, `Bridge.OnePayloadIsNeeded`.
* A dump round fails its check on closing when an empty batch comes first.  Files, anchor and flying batches stay
  consistent even then (`ExampleIdDumper.EveryRunIsConsistent`), and without a dump interval no check ever fails
  (`ExampleIdDumper.NoIntervalNoFailure`).  With one, `ExampleIdDumper.TakingIsExact`: taking a batch leads to no failure
  exactly when it is not empty, or others fly before it, or an eviction comes before the next dump.  An empty batch
  behind others makes the round go round until it is due (`ExampleIdDumper.EmptyBatchStalls`).
* A visitor that has run into an empty *last* file keeps an iterator without an open file: until a reset, `next` and
  `seek` then fail an assertion, even after another file has appeared (`Visitor.EmptyLastFileBreaks`).  The contracts of
  `Visitor.Visitor.Next` and `Visitor.Visitor.Seek` say exactly when this state is entered.
* A CLOSE that arrives while the own connection is still being established is acknowledged but forgotten
  (`Channel.ForgottenCloseHappens`), and the channel then never becomes DONE unless a CLOSE reaches it again
  (`Channel.WithoutAnotherClose`).  `Channel.KnowsExactlyWhatItLearnt`: a channel that has not failed knows that its peer
  has closed exactly when some CLOSE reached it at another time.
* The leader of federated averaging can stop while a follower waits for a version that never comes
  (`FedAvgRounds.StrandingHappens`, `FedAvgRounds.StrandedForever`).  `FedAvgRounds.LastPullOnlyIfEnded`: once the leader
  has quitted, a waiting follower's pull is answered exactly if its last push ended its training.
* A push that is counted but whose reply is lost is refused when it is repeated, and the follower fails
  (`FedAvgRounds.RefusedExactlyIfCounted`); if it was its last push, it is without its last pull although its training has
  ended (`FedAvgRounds.LostReplyFailsFollower`, `FedAvgRounds.FailedForever`).
* A leader that waits for pushes may wait for ever.  `FedAvgProgress.NextVersionCanCome`: the next version can be published
  exactly if no follower that is still to push has failed.
* Epochs are not complete when local and joined blocks are mixed (`EpochAllocator.LocalRequestsSkipJoined`).  The contract
  of `EpochAllocator.DataVisitor.Next` says exactly when: the epoch moves on while blocks of the other kind are left.
* The batch queue can say "finished" too early after a rollback (`ItemBatchQueue.RollbackFinishesEarly`); the contract of
  `Fetch` says exactly when it says so, and `ItemBatchQueue.Exchange` that without a rollback it is said exactly when
  the peer has everything produced.  With a peer that dumps what it gets no round rolls back
  (`Synchronization.Synchronize`).

## Model

| member | source | states |
|---|---|---|
| FeatureIds.FidRoundTrip | fedlearner/trainer/utils.py:42-49 | the slot read from a made id is the slot it was made from, and hashing it sees exactly the low bits of the hash value, in both formats and through the signed representation |
| FeatureIds.FormatsFillTheWord | fedlearner/trainer/utils.py:42-49 | every 64-bit word is the id of its slot and low bits in the first format, and every word without a sign bit in the second, whose ids are never negative |
| FeatureIds.ToFidV2KeepsSlot | cc/operators/utils/common.h:50-55 | converting an id to the second format keeps its slot and the low bits of its feature |
| SlotPlanner.MarkLeavesEnoughSlots | fedlearner/trainer/utils.py:64-83 | with ties broken towards the largest k, the mark of a finite entry (p, s) is at least p - 1 and its predecessor is finite too |
| SlotPlanner.CostIsPaid | fedlearner/trainer/utils.py:67-83 | the cost of a grouping (per table, largest size times sum of hash sizes) equals what its slots pay one by one |
| SlotPlanner.LeadersPayForRuns | fedlearner/trainer/utils.py:69-83 | exchange step: the largest slots of the tables of any grouping pay at least what the best contiguous runs cost |
| SlotPlanner.BestIsOptimal | fedlearner/trainer/utils.py:52-83 | the recurrence is a lower bound on the cost of every grouping of the sorted slots into single-key tables, contiguous or not |
| SlotPlanner.CostOfPermutation | fedlearner/trainer/utils.py:53-54 | sorting the slots does not change the cost of any grouping |
| SlotPlanner.FillTables | fedlearner/trainer/utils.py:64-83 | the nested loops fill the cost and mark tables with the recurrence and its largest minimiser |
| SlotPlanner.PlaceRun | fedlearner/trainer/utils.py:94-101 | one round of the walk stacks the slots of its run in one table and touches nothing else |
| SlotPlanner.WalkBack | fedlearner/trainer/utils.py:85-103 | the walk ends at slot 0 with exactly `groups` non-empty single-key runs that cover all slots and cost what the recurrence says |
| SlotPlanner.PlaceColumns | fedlearner/trainer/utils.py:105-114 | sizes, hash sizes and output offsets per slot id; absent ids have size 0 |
| SlotPlanner.PlannedIsLayout | fedlearner/trainer/utils.py:85-114 | every slot fits its table; each row of each table and each output column belongs to exactly one slot |
| SlotPlanner.ComputeSlotConfig | fedlearner/trainer/utils.py:52-127 | the number of tables is the requested one, kept between the number of keys and that of slots; the layout is sound; the output columns follow the order in which the slots were given; no grouping into that many tables holds fewer weights |
| EmbeddingKernels.ShardsTileTable | fedlearner/trainer/embedding.py:26-27 | rows v of a table and rows v div n of shard v mod n correspond one to one, within the shard sizes |
| EmbeddingKernels.LayoutIsUsable | fedlearner/trainer/embedding.py:64-113 | the planner's configuration satisfies everything the kernels index with it |
| EmbeddingKernels.RowsCollideWithinSlots | cc/operators/kernels/embedding_pooling.cc:55-60 | under the planner's layout two ids read the same row of a table exactly when they have the same slot and their hashes collide |
| EmbeddingKernels.ColumnsAreSeparate | cc/operators/kernels/embedding_pooling.cc:50-60 | under the planner's layout ids of different slots never write to the same output column |
| EmbeddingKernels.IdsAreKnown | cc/operators/utils/common.h:36-39 | 64-bit ids of the first format and non-negative ones of the second index the slot lists |
| EmbeddingKernels.Collect | cc/operators/kernels/embedding_pooling.cc:124-140 | keeps the ids of configured slots in order and counts them per shard |
| Partition.SortEntries | cc/operators/kernels/embedding_pooling.cc:141-144 | a permutation sorted by id |
| Partition.ShardDistinctStep | cc/operators/kernels/embedding_pooling.cc:193-207 | comparing with the predecessor in the global order counts the distinct ids of each shard and table |
| EmbeddingKernels.HandOut | cc/operators/kernels/embedding_pooling.cc:189-210 | each shard gets its ids and instances in sorted order and its distinct ids per table are counted; the check on the positions passes |
| EmbeddingKernels.IndexShard | cc/operators/kernels/embedding_pooling.cc:226-245 | every position names a slice that carries the row of its id, no slice is left unfilled, and the check on the counts passes |
| Partition.SlicesAreDistinct | cc/operators/kernels/embedding_pooling.cc:230-240 | two positions of a table share a slice exactly when they hold the same id |
| EmbeddingKernels.Preprocess | cc/operators/kernels/embedding_pooling.cc:117-246 | the kernel never reports an invalid argument, and every shard's output is consistent with the sorted ids |
| EmbeddingLookup.Pool | cc/operators/kernels/embedding_pooling.cc:29-65 | each output cell is the sum, over the positions of the batch, of the column of the id's row that belongs there, with slot, size, table, row and offset read off the slot lists |
| EmbeddingLookup.Unpool | cc/operators/kernels/embedding_pooling.cc:69-101 | each cell of a gradient slice is the sum of the output gradients of the positions that name the slice, all columns of their slots, read off the slot lists |
| Pooling.GradientIsAdjoint | cc/operators/kernels/embedding_pooling.cc:45-63 | for all weights W and gradients G, the inner product of pool(W) with G is that of W with the gradient slices, with repeated ids and hash collisions |
| Pooling.DenseGradientIsAdjoint | fedlearner/trainer/operator.py:98-117 | the same with the slices added up per row, as the optimizer applies them |
| Pooling.PoolOfPermutation | cc/operators/kernels/embedding_pooling.cc:141-144 | pooling does not depend on the order of the ids, whatever the sort did to equal ones |
| Pooling.ShardedPoolIsPool | fedlearner/trainer/embedding.py:115-124 | pooling each shard on its rows and adding up is pooling on the undivided tables |
| EmbeddingLookup.RowFitsShard | cc/operators/kernels/embedding_pooling.cc:55-58 | every row a shard is asked for lies inside that shard's variable |
| EmbeddingLookup.LookupOneShard | fedlearner/trainer/embedding.py:64-113 | one shard's output read off the undivided tables |
| EmbeddingLookup.Lookup | fedlearner/trainer/embedding.py:115-124 | for any number of shards, preprocessing, pooling and summing gives in every output cell the sum, over the positions of the batch, of the id's row in the undivided tables as the slot lists say |
| LookupLaws.SlotColumns | cc/operators/kernels/embedding_pooling.cc:42-60 | under the planner's layout the output columns of a slot hold, for each instance, exactly the sum of the rows of that slot's ids, column by column; table, row and offset are read off the slot lists |
| LookupLaws.KeptEntries | cc/operators/kernels/embedding_pooling.cc:124-131 | exactly the positions of configured slots are kept, with their ids and instances |
| EmbeddingLookup.ShardInShape | fedlearner/trainer/operator.py:44-76 | what the preprocessing kernel hands to a shard meets the assumptions of pooling, un-pooling and the adjointness theorem |
| EmbeddingLookup.ShardGradient | fedlearner/trainer/operator.py:79-117 | the gradient op on a preprocessed shard is the adjoint of that shard's pooling |
| LookupLaws.GradientOfId | cc/operators/kernels/embedding_pooling.cc:83-98 | for every id of the batch and any number of shards: its row has a slice on the row's shard, and each column of the slice is the sum of the output gradients, that far into its slot's columns, over all positions that hold the id |
| EmbeddingLookup.ShardedGradientIsAdjoint | fedlearner/trainer/operator.py:79-117 | over all shards: the inner product of the undivided pooling with G is the sum over the shards of their rows with their slices |
| ResendQueue.SendRequestQueue.Add | fedlearner/channel/client_interceptor.py:266-276 | appends the next numbered request |
| ResendQueue.SendRequestQueue.Get | fedlearner/channel/client_interceptor.py:305-330 | a stale consumer stops, an up-to-date one waits, otherwise the request at the offset is sent |
| ResendQueue.SendRequestQueue.Ack | fedlearner/channel/client_interceptor.py:285-303 | ignores stale consumers and numbers not yet used, otherwise drops the requests up to the number and moves the offset with them |
| ResendQueue.SendRequestQueue.Consumer | fedlearner/channel/client_interceptor.py:332-336 | a new consumer starts again from the oldest kept request |
| ResendQueue.AckDropsUpTo | fedlearner/channel/client_interceptor.py:285-303 | an accepted acknowledgement drops exactly the requests up to it |
| ResendQueue.AckKeepsValid | fedlearner/channel/client_interceptor.py:285-303 | the deque holds [seq - len, seq) with 0 <= offset <= len afterwards if and only if the acknowledgement was ignored or named a request already sent |
| ResendQueue.GetIsExact | fedlearner/channel/client_interceptor.py:305-330 | a consumer is stopped exactly if another has taken over, waits exactly if it has been sent everything, and otherwise gets the next request it has not been sent |
| ResendQueue.HarmlessAcknowledgement | fedlearner/channel/client_interceptor.py:285-303 | for any acknowledgement in any safe state of queue and streams: the deque stays valid and every pulled request is kept or has been read if and only if the acknowledgement is ignored or names a request that is both sent and read |
| ResendQueue.EarlyAnswerLosesRequest | fedlearner/channel/server_interceptor.py:22-45 | a run in which a stream answers before reading: request 0, sent or not, is acknowledged and dropped unread |
| ResendQueue.SeenIsPrefix | fedlearner/channel/server_interceptor.py:34-45 | if each delivery is a repetition or the next unseen request, the requests seen are always a prefix |
| ResendQueue.EveryRunIsSafe | fedlearner/channel/client_interceptor.py:191-336 | over every interleaving of pulls, sends, deliveries (also on abandoned streams), answers, acknowledgements and takeovers in which streams answer after reading: the deque stays consecutive and each delivered request has a number at most the number of distinct ones delivered before |
| ResendQueue.NothingIsLost | fedlearner/channel/client_interceptor.py:285-303 | every pulled request is still kept or has reached the server |
| ResendQueue.CatchesUp | fedlearner/channel/client_interceptor.py:305-336 | after any run, a new stream that is left alone delivers everything that has not arrived yet |
| ResendQueue.AnswersAreAccepted | fedlearner/channel/client_interceptor.py:191-211 | every response of the stream in use is passed on |
| Bridge.Bridge.TransmitHandler | fedlearner/trainer/bridge.py:250-328 | the handler's effect on the shared state for each kind of message, resent or not |
| Bridge.Bridge.Start | fedlearner/trainer/bridge.py:369-381 | starts the next iteration and transmits it, or fails and changes nothing |
| Bridge.Bridge.Commit | fedlearner/trainer/bridge.py:383-398 | ends the iteration, transmits the commit and drops its data, or fails and changes nothing |
| Bridge.Bridge.Send | fedlearner/trainer/bridge.py:421-433 | transmits data of the current iteration only |
| Bridge.Bridge.Receive | fedlearner/trainer/bridge.py:449-483 | one look: the data, the first of the possible failures, or waiting |
| Bridge.BridgeTransmitsInTurn | fedlearner/trainer/bridge.py:369-433 | whatever is called in whatever order, iterations are transmitted one after the other, each started before its data and commit |
| Bridge.RepeatIsIgnored | fedlearner/trainer/bridge.py:250-328 | any message delivered again changes nothing |
| Bridge.ExactlyOnce | fedlearner/trainer/bridge.py:250-328 | for any deliveries with first occurrences in order and any interleaving with local starts and commits, the state is that of a duplicate-free replay |
| Bridge.CommittedDataStaysAway | fedlearner/trainer/bridge.py:299-312 | data of a locally committed iteration never comes back |
| Bridge.ReceiveIsExact | fedlearner/trainer/bridge.py:449-483 | over all runs, in terms of what has arrived, each of the six answers of a receive is given exactly when it should be: the payload, peer committed, peer terminated, waiting, not started, iteration changed |
| Bridge.OnePayloadIsNeeded | fedlearner/trainer/bridge.py:312-320 | for every log that sends a name with two payloads in an iteration there are deliveries after which the state differs from the replay |
| StreamCalls.EveryRunIsSafe | fedlearner/trainer/bridge.py:204-238 | over any number of stream calls, each begun when the one before has ended and numbered from 0 again, with streams of earlier calls still delivering: every delivered request is genuine, and each is a repetition or the next unseen one of all calls together |
| StreamCalls.EndedIsReadOut | fedlearner/trainer/bridge.py:234-238 | a call that has ended, as its client sees it, has been read completely |
| StreamCalls.AllHaveArrived | fedlearner/trainer/bridge.py:204-238 | when the last call has ended, every request of every call has reached the server |
| ReliableBridge.EachMessageCountsOnce | fedlearner/trainer/bridge.py:204-328 | end to end over any number of stream calls with their resend queues and broken streams: for every behaviour of the peer's application and every interleaving with this side's calls, each message counts once and in order |
| ReliableBridge.ReceiveFindsWhatWasSent | fedlearner/trainer/bridge.py:421-483 | end to end: what a receive returns was sent by the peer's application, and what it reports as never sent was not |
| ReliableBridge.NothingStaysBehind | fedlearner/trainer/bridge.py:421-483 | once the peer's stream calls have taken everything and the last has ended, a receive finds a payload if and only if the peer sent it in this iteration |
| Channel.ChannelObject.EmitEvent | fedlearner/channel/channel.py:304-326 | follows the transition table |
| Channel.ChannelObject.CallHandler | fedlearner/channel/channel.py:578-625 | answers and state changes for CONNECT, HEARTBEAT and CLOSE, with timestamps fixed by the first call |
| Channel.ChannelObject.CallReturned | fedlearner/channel/channel.py:399-450 | takes over the answered timestamp, or fails |
| Channel.TimesAgree | fedlearner/channel/channel.py:220-232 | over all runs with lost, late and repeated calls and replies, two channels that have been READY report the same connection time and two that are DONE the same closing time |
| Channel.ConnectedAtIsStable | fedlearner/channel/channel.py:220-225 | the connection time of a channel that has been READY never changes |
| Channel.ClosedOnlyIfAsked | fedlearner/channel/channel.py:615-622 | a channel sees its peer closed only if the peer asked to close |
| Channel.EarlyCloseIsForgotten | fedlearner/channel/channel.py:615-622 | a CLOSE answered with OK makes the channel know that its peer has closed if and only if the own connection is established |
| Channel.KnowsExactlyWhatItLearnt | fedlearner/channel/channel.py:578-625 | over all runs: a channel that has not failed is in a peer-closed state exactly when some CLOSE reached it outside CONNECTING_CONNECTED, and has a closing time of its peer exactly when it answered one |
| Channel.ForgottenCloseHappens | fedlearner/channel/channel.py:59-99 | a run with one lost reply ends with one channel READY, having acknowledged a CLOSE, and the other waiting for its peer without calling CLOSE again |
| Channel.WithoutAnotherClose | fedlearner/channel/channel.py:59-99 | a channel that has forgotten the CLOSE never becomes DONE, however the run goes on, unless another CLOSE reaches it |
| ChannelLaws.StateIsExact | fedlearner/channel/channel.py:59-99 | over all runs the state of a channel that has not failed is determined by what has happened: whether either CONNECT was answered, whether it was closed, whether its CLOSE was answered and its peer's learnt; it is DONE exactly in the last case |
| ChannelLaws.OrderlyRunsNeverFail | fedlearner/channel/channel.py:399-440 | as long as nothing fails from outside and no channel is closed before it is ready, no channel ever fails, whatever calls and replies are lost, late or repeated |
| FedAvg.LeaderMaster.SumWeights | fedlearner/fedavg/master.py:278-286 | adds the weights and counts them per variable, leaving the rest of the leader alone |
| FedAvg.SumIsAggregated | fedlearner/fedavg/master.py:278-286 | the accumulator is, per variable, the sum over the contributions that have it and their number |
| FedAvg.LeaderMaster.AggregateWeights | fedlearner/fedavg/master.py:288-302 | publishes the quotients under the next version and empties the accumulator |
| FedAvg.LeaderMaster.PushHandler | fedlearner/fedavg/master.py:372-403 | counts a push exactly when it names the version the follower pushed last |
| FedAvg.LeaderMaster.PullHandler | fedlearner/fedavg/master.py:344-370 | ready for the latest version, or for a last pull once the leader has quitted |
| FedAvg.LeaderMaster.FollowerPushInfo | fedlearner/fedavg/master.py:205-215 | the followers that have ended, those of the others that have pushed for the version being aggregated, and the rest |
| FedAvgRounds.NoPushSlipsIn | fedlearner/fedavg/master.py:249-276 | between the leader seeing that all have pushed and its aggregating, and after it has stopped, every request in flight is rejected |
| FedAvgRounds.RejectedWasCounted | fedlearner/fedavg/master.py:385-387 | a request that is rejected has been counted before: a repeated push never counts twice |
| FedAvgRounds.StepIsSafe | fedlearner/fedavg/master.py:59-94 | every step of leader, followers and network keeps the books, the followers' sessions and the replies consistent |
| FedAvgRounds.EveryRunIsSafe | fedlearner/fedavg/master.py:143-478 | over all runs, with repeated and late requests and lost replies, the leader's books, the followers' sessions and all replies in flight stay consistent |
| FedAvgRounds.PublishedIsMean | fedlearner/fedavg/master.py:249-302 | each published version is the mean of its contributions: exactly one of every follower that had not ended before, none of the others, at most one of the leader |
| FedAvgRounds.Lockstep | fedlearner/fedavg/master.py:68-76 | a follower still training is at the latest version or has pushed for the next; the leader never skips a version a follower waits for |
| FedAvgRounds.PullReturnsVersion | fedlearner/fedavg/master.py:72-74 | a pull after a push returns the version the push named, so the follower's assertion holds |
| FedAvgRounds.PullIsExact | fedlearner/fedavg/master.py:344-370 | the pull of a waiting follower is never refused; it has to wait exactly while the version it asks for is not published or, for a last pull, while the leader has not quitted |
| FedAvgRounds.PullIsNeverRefused | fedlearner/fedavg/master.py:443-462 | over all runs, with late and repeated pulls, no error ever reaches a follower that waits for its pull |
| FedAvgRounds.OnlyRepeatedPushesFail | fedlearner/fedavg/master.py:425-478 | a follower fails in no other way than by repeating a push that was counted |
| FedAvgRounds.LastPullsAgree | fedlearner/fedavg/master.py:78-94 | all followers that completed the last pull hold the leader's final weights, version and timestamp |
| FedAvgRounds.NothingAfterQuit | fedlearner/fedavg/master.py:230-243 | once the leader has quitted nothing is published any more |
| FedAvgRounds.StrandedWaits | fedlearner/fedavg/master.py:268-276 | a follower left behind by the leader's stop neither trains nor has finished, and its pull or push is not accepted |
| FedAvgRounds.StrandedForever | fedlearner/fedavg/master.py:268-276 | no later step of anyone changes that |
| FedAvgRounds.LastPullOnlyIfEnded | fedlearner/fedavg/master.py:344-370 | once the leader has quitted, the pull of a waiting follower is answered if and only if its last push ended its training |
| FedAvgRounds.RefusedExactlyIfCounted | fedlearner/fedavg/master.py:372-403 | a push that arrives is refused if and only if it has been counted before |
| FedAvgRounds.LostReplyFailsFollower | fedlearner/fedavg/master.py:464-478 | a run in which the last push is counted, its reply is lost and its repetition refused: the leader quits, and the follower has failed although its training has ended |
| FedAvgRounds.StrandingHappens | fedlearner/fedavg/master.py:268-276 | a run in which a follower pulls and pushes between the last publication and the leader's second look |
| FedAvgProgress.EveryoneHasJoined | fedlearner/fedavg/master.py:217-228 | the leader does not start before every follower has joined |
| FedAvgProgress.NextVersionCanCome | fedlearner/fedavg/master.py:249-302 | for every run in which the leader waits for pushes: some continuation publishes the next version if and only if no follower still to push has failed |
| ExampleIdDumper.DumperObject.DumpExampleIdBatch | fedlearner/data_join/example_id_dumper.py:47-58 | appends a consecutive batch, skips an empty one, fails on a gap |
| ExampleIdDumper.FlyingBatches.AddExampleIdBatch | fedlearner/data_join/example_id_dumper.py:129-147 | accepts exactly the batch that starts at the next index |
| ExampleIdDumper.FlyingBatches.EvictDumped | fedlearner/data_join/example_id_dumper.py:269-284 | drops the dumped batches, or fails the alignment check and changes nothing |
| ExampleIdDumper.AnchorStore.Update | fedlearner/data_join/example_id_visitor.py:103-152 | moves the anchor or reports the first failed check |
| ExampleIdDumper.AnchorMovesForward | fedlearner/data_join/example_id_visitor.py:109-135 | which anchors are accepted: an existing non-empty file of the next process, starting beyond everything dumped |
| ExampleIdDumper.EvictSplits | fedlearner/data_join/example_id_dumper.py:269-284 | after an eviction the flying batches are exactly the ids from the anchor on |
| ExampleIdDumper.EveryRunIsConsistent | fedlearner/data_join/example_id_dumper.py:129-284 | over all runs, with empty batches, dump rounds aborted at any point and restarts at any time: anchor, files, flying batches and dumper fit together |
| ExampleIdDumper.FilesAndFlyingAreAccepted | fedlearner/data_join/example_id_dumper.py:129-174 | the anchored files followed by the flying batches not yet dumped are exactly the accepted ids, without gap or overlap |
| ExampleIdDumper.ListingIsInOrder | fedlearner/data_join/example_id_visitor.py:157-174 | a directory listing at any moment shows files numbered in the order of their start indices, at most one beyond the anchor |
| ExampleIdDumper.BreaksOnEmptyHead | fedlearner/data_join/example_id_dumper.py:67-78 | the only check that can fail is the one on closing a dumper, and it fails exactly when an empty batch comes first; the alignment check of the eviction never does |
| ExampleIdDumper.NoIntervalNoFailure | fedlearner/data_join/example_id_dumper.py:193-200 | without a dump interval no check fails in any run |
| ExampleIdDumper.ClearIsExact | fedlearner/data_join/example_id_dumper.py:149-221 | for every run so far: no careful continuation fails a check if and only if no empty batch is first in line for dumping |
| ExampleIdDumper.TakingIsExact | fedlearner/data_join/example_id_dumper.py:129-147 | taking a batch leads to no failure if and only if it is not empty, or others fly before it, or an eviction comes before the next dump |
| ExampleIdDumper.EmptyBatchStalls | fedlearner/data_join/example_id_dumper.py:169-191 | an empty batch behind others keeps the round where it is until it is due or the file is full |
| DumpRounds.RoundCompletes | fedlearner/data_join/example_id_dumper.py:169-221 | a round under way after the sync has finished, with no empty batch flying, ends with nothing flying and the accepted ids in the anchored files, whatever the threshold, the interval and the clock |
| DumpRounds.EverythingGetsDumped | fedlearner/data_join/example_id_dumper.py:149-221 | the same from the end of any run, crashes included, for the round under way or the next one; no check fails |
| DumpRounds.FilesAreBounded | fedlearner/data_join/example_id_dumper.py:60-65 | over all runs: a file without its last batch holds at most as many ids as a positive threshold says; without an interval a file is closed only if it holds more, or everything once the sync has finished |
| DumpRounds.ClosedWhenDue | fedlearner/data_join/example_id_dumper.py:193-200 | with an interval an open file is closed once it is due; without one the clock does not matter |
| Visitor.Visitor.SeekInFile | fedlearner/data_join/raw_data_iter_impl/raw_data_iter.py:114-137 | moves to the target or to the last item of the open file |
| Visitor.Visitor.OpenFile | fedlearner/data_join/raw_data_iter_impl/raw_data_iter.py:102-112 | opens a file at its first item, keeps the file already open, and is left without a file by an empty one |
| Visitor.Visitor.ForwardToTarget | fedlearner/data_join/visitor.py:201-246 | lands on the target if it is published and is exhausted otherwise, whatever files are empty; terminates on the number of files |
| Visitor.Visitor.Next | fedlearner/data_join/visitor.py:177-199 | the item after the current one; the end exactly when there is none; an assertion failure exactly when an empty last file was met before |
| Visitor.Visitor.Seek | fedlearner/data_join/visitor.py:100-113 | lands on item t if it is published and is exhausted otherwise; what a finished visitor still allows; exactly when the iterator is left without a file |
| Visitor.ReadAll | fedlearner/data_join/visitor.py:118-123 | iterating after a reset yields all published items once and in order |
| Visitor.EmptyLastFileBreaks | fedlearner/data_join/visitor.py:177-199 | a file with one item, then an empty one: after the end, a newly published file is not read and the step fails its assertion |
| PublishLog.SharedLog.FindEnd | fedlearner/data_join/raw_data_publisher.py:106-120 | halving on a growing log ends and returns an index after everything that was there at its start and not beyond the log |
| PublishLog.SharedLog.ScanForward | fedlearner/data_join/raw_data_publisher.py:121-127 | finds the end of the log |
| PublishLog.SharedLog.CheckFinishTag | fedlearner/data_join/raw_data_publisher.py:129-140 | true exactly for a finish tag, which is then the end of the log |
| PublishLog.SharedLog.PublishRawData | fedlearner/data_join/raw_data_publisher.py:33-82 | among others that append at any time: writes its files once each and in order, all of them or up to a finish tag |
| PublishLog.EveryRunIsSafe | fedlearner/data_join/raw_data_publisher.py:33-140 | under every interleaving of publishers and finishers the keys have no gap, nothing follows a finish tag, and every publisher's files appear once each in order |
| PublishLog.LogIsAppendOnly | fedlearner/data_join/raw_data_publisher.py:59-68 | however the run goes on, what was written stays under its key |
| PublishLog.HalvingEnds | fedlearner/data_join/raw_data_publisher.py:107-120 | each probe at least halves the remaining range |
| PublishLog.AloneFinishes | fedlearner/data_join/raw_data_publisher.py:33-104 | from any state reached, a thread that is left alone comes to its end, with all its files in the log or the log finished |
| PublishLog.Subscription.TryToSubscribe | fedlearner/data_join/raw_data_manifest_manager.py:208-240 | stores exactly the log's files up to where it stops, at the end it saw or at the finish tag |
| ItemBatchQueue.ItemBatchSeqProcessor.Fetch | fedlearner/data_join/item_batch_seq_processor.py:156-184 | whatever the hint, returns the batch that starts at the index exactly when one is queued; reports the end of production exactly beyond the last index, behind the begin of the last queued batch up to its end, or with a hint beyond the queue from that end on |
| ItemBatchQueue.ItemBatchSeqProcessor.Evict | fedlearner/data_join/item_batch_seq_processor.py:186-198 | drops exactly the stale batches and keeps the flying count |
| ItemBatchQueue.ItemBatchSeqProcessor.Append | fedlearner/data_join/item_batch_seq_processor.py:200-213 | appends a consecutive batch, refuses any other |
| ItemBatchQueue.ItemBatchSeqProcessor.CheckRollback | fedlearner/data_join/item_batch_seq_processor.py:215-228 | a rollback is an index that is neither queued nor next |
| ItemBatchQueue.ItemBatchSeqProcessor.StartProducing | fedlearner/data_join/item_batch_seq_processor.py:105-117 | where a round goes on, and that the queue is kept unless the index rolls back |
| ItemBatchQueue.ItemBatchSeqProcessor.ProduceRound | fedlearner/data_join/item_batch_seq_processor.py:105-147 | with one producer, empty batches among the produced ones and evictions in between, the fatal branch is never taken and the queue stays consecutive |
| ItemBatchQueue.Session.Fetch | fedlearner/data_join/item_batch_seq_processor.py:156-184 | without a rollback: returns the first batch the peer does not have, again if sending it failed, and reports the end exactly when production has ended and the peer has every batch produced |
| ItemBatchQueue.Exchange | fedlearner/data_join/item_batch_seq_processor.py:105-233 | any interleaving of rounds, batches, fetches with any hints, failing sends, evictions and restarts of the peer: what the peer has is the beginning of what was produced, it gets the next batch whenever there is one, and the end is never reported too early or withheld |
| ItemBatchQueue.RollbackFinishesEarly | fedlearner/data_join/item_batch_seq_processor.py:173-179 | after a rollback the end is reported although batches up to the last index are still to be produced again |
| ItemBatchQueue.SyncLeader.GetSyncContent | fedlearner/data_join/example_id_sync_leader.py:54-63 | the remembered place is negative exactly when the batch it should name is evicted, never when the peer has dumped only what precedes the index it asks for, and otherwise points behind the batch just returned |
| Synchronization.DumpedBeforeNext | fedlearner/data_join/transmit_follower.py:83-91 | whatever a dumper has gone through, the dumped index it reports, even after dumping on or a restart, comes before the next index it asked for |
| Synchronization.ServePeer | fedlearner/data_join/example_id_sync_leader.py:54-63 | so with a peer that dumps, crashes and restarts at any time the remembered place is never negative, and the assertion on it holds at every fetch |
| Synchronization.KeptBatches | fedlearner/data_join/example_id_dumper.py:110-127 | what a peer has kept after a restart is a whole number of batches, and includes every batch the leader has evicted |
| Synchronization.Fetch | fedlearner/data_join/transmit_leader.py:234-260 | the batch fetched is exactly the one the peer asks for, and leader and peer fit together whether it reaches the peer or not |
| Synchronization.Synchronize | fedlearner/data_join/transmit_leader.py:187-276 | end to end, over producing, fetching, failed sends, evictions, dumping, crashes and restarts: no round rolls back, the peer gets the next batch whenever there is one, and its anchored files are exactly the leader's items up to its anchor |
| EpochAllocator.ShuffleInDay | fedlearner/trainer/data_visitor.py:91-113 | a permutation in place that leaves every position on its day |
| EpochAllocator.DataVisitor.Next | fedlearner/trainer/data_visitor.py:259-283 | returns the first block of the list, as shuffled, that is not allocated in this epoch; stops only when every block of the kind is allocated in every epoch since which the kind was handed out without a gap; the other kind stays complete exactly when the epochs passed were complete for it; terminates |
| EpochAllocator.DataVisitor.Restore | fedlearner/trainer/data_visitor.py:201-222 | adds the checkpoint and keeps what the epochs before are known to cover |
| EpochAllocator.Train | fedlearner/trainer/data_visitor.py:191-222 | over any number of dumps and restores into freshly shuffled visitors and any requests for joined and local blocks nothing is handed out twice, and a last round of joined requests that is exhausted means each joined block went out exactly once in every epoch |
| EpochAllocator.TakeInOrder | fedlearner/trainer/data_visitor.py:259-283 | without shuffling the joined blocks go out in the order given, epoch after epoch, each once |
| EpochAllocator.LocalRequestsSkipJoined | fedlearner/trainer/data_visitor.py:275-283 | a run that exhausts the joined blocks although one never went out in the first epoch |

## Left out

- SlotPlanner.ComputeSlotConfig: assumes that some grouping costs less than the program's infinity; group keys are integers.
- FeatureIds.FidRoundTrip: bit operations on 64-bit words are written as division and remainder.
- EmbeddingLookup.Lookup: weights are reals and `int(total / num)` is exact division; rounding is not modelled, and output tensors that only one loop fills are sequences.
- Partition.SortEntries: any sort by id; the order of equal ids is unspecified, as with `std::sort`.
- ResendQueue.EveryRunIsSafe: assumes that streams answer only after reading, as the bridge's service does; the timing and metrics of requests are left out.
- StreamCalls.EveryRunIsSafe: streams answer only after reading, as the bridge's service does; a call that fails for good is not followed by another.
- Bridge.Bridge.Receive: the waiting itself and its timeouts; the bound on the stream queue.
- Channel.TimesAgree: two fixed peers that pass the token and identifier checks; restarted peers are rejected by those checks and are not part of this model, nor are heartbeats' deadlines except as failures at any time.
- FedAvgRounds.PublishedIsMean: one real stands for each variable's array; followers and variables are numbered.
- FedAvgRounds.LastPullsAgree: saving the model.
- ExampleIdDumper.EveryRunIsConsistent: one dump round at a time, as the dump worker runs them; a write to the key-value store takes effect at once or not at all.
- Visitor.Visitor.Seek: read errors of the file iterator and the end index of the example id visitor.
- PublishLog.Subscription.TryToSubscribe: a crash between storing the files and advancing the index.
- ItemBatchQueue.SyncLeader.GetSyncContent: fetch and evict are one step.
- Synchronization.Synchronize: one partition; the leader does not restart and knows the index its peer is at: what it does in the time between a restart of the peer and asking it again (a batch that the peer refuses) is left out.
- ItemBatchQueue.ItemBatchSeqProcessor.ProduceRound: the limit on flying items.
- EpochAllocator.Train: each round ends with the dump that the next one restores; the encoding of checkpoints is left out.
- gRPC, TensorFlow graphs and sessions, file systems, key-value store clients, metrics, logging, argument parsing, web console and Kubernetes: input and output.
- Sort-run merging, raw data partitioning, block id formatting and the join master's states are not part of this model.
