# Sarama: producer, consumer, assignors, codec and caches, modelled and proved

Sarama is a client for Kafka. This project models the parts of it whose correctness depends on whole
runs or on all inputs, and proves what they promise.

* **Producer retries** (`Retry*.dfy`, `PartitionProducer.dfy`). One partition's retry protocol is a
  step system: user input, the retry channel, the partition producer with its retry levels, and any
  number of broker producers, each with an input channel, a buffer and at most one outstanding set.
  Leader lookups, broker replies, lost connections and flush times are arguments of the steps. The
  main results are order of acknowledgements, the retry-level invariant, conservation of messages, and
  the fate of every message: what acknowledges it, what fails it, and what brings it back.
  `PartitionProducer` is the same partition producer as an object updated in place.
* **Fetching** (`FetchModel.dfy`, `ReadCommitted*.dfy`, `OffsetMonotony.dfy`, `PartitionConsumer.dfy`,
  `FetchedBytes.dfy`, `LegacyRead.dfy`, `LegacyBytes.dfy`). Reading a log through fetch responses refines
  the set of visible records, from the bytes of the encoded log, cut off anywhere, to the messages handed
  out, for logs of batches and for logs of legacy message sets; offsets only climb.
* **Consumer-group assignors** (`Sticky*.dfy`, `Assignors.dfy`, `RangePlan.dfy`). The sticky assignor
  with its movement records, score and reassignment loop: the loop as a relation over turns, passes
  and runs, what every run keeps, when it ends, and groups for which it does not end or does not do
  what it should; range plans and round-robin.
* **Wire format** (`Wire.dfy`, `Encoding.dfy`, `TwoPass.dfy`, `Decoding.dfy`, `RecordCodec.dfy`,
  `BatchCodec.dfy`, `RecordBatch.dfy`, `LegacyCodec.dfy`, `Truncation.dfy`, `LegacyTruncation.dfy`,
  `ProduceSet.dfy`, `WireLayout.dfy`, `WireChecks.dfy`). The two passes of an encoding agree, decoding
  inverts it, every byte is where the format has it, and cut-off data is tolerated at any byte. The format is that of the RecordBatch section under "Messagesets" of "A
  Guide To The Kafka Protocol".
* **Caches** (`ClientCache.dfy`, `OffsetManager.dfy`). The partition cache against the metadata, and the
  dirty flag of offset managers against what the broker has acknowledged.

Where the source updates an object in place there is a class whose methods are proved against
functions on values; theorems are about those functions.

Some promises turn out to hold only under a condition. Each has an input at which it fails, and the
condition is the one the code meets exactly, unless said otherwise:

* Acknowledgement order (`RetryTheorems.OrderedIffRetriesOn`) holds exactly when retries are enabled.
  The comment at async_producer.go:565 promises it without that condition. A run that reorders is
  `RetryTheorems.RetriesOffReorders`.
* No visible record is lost (`ReadCommittedRun.NothingLostIff`) exactly when none is at an offset that
  consumer.go:728-732 skips, with a full-sized fetch that holds only a part of a message. One that is
  lost is in `ReadCommittedRun.LargeMessageIsLost`.
* The consumer's offset falls (`OffsetMonotony.OffsetFallsOnlyByJump`) exactly by the jump at
  consumer.go:743-747; `OffsetMonotony.JumpBackRepeats` hands out a record twice.
* The sticky reassignment loop need not end, even with all previous owners subscribed:
  `StickyEndlessPlan.NeverPlanned` is a plan that no number of passes completes, because from the
  second pass on each pass makes a move and takes it back. Turn by turn it is known before the move
  whether the score falls (`StickyTurns.TurnLowersScoreIff`): exactly when the owner of the partition
  actually moved has at least two more than the target. Two conditions a caller can check make the loop
  end and lower the score: all members may have all shared partitions and none of these has a previous
  owner (`StickyUniform.UniformEnds`), or no topic has two shared partitions and previous owners are
  subscribed (`StickyUniform.SparseEnds`). They are sufficient; an exact condition is open.
* Members stay subscribed to what they hold over a turn (`StickyUnsubscribed.TurnKeepsSubscribedIff`)
  exactly when the test at balance_strategy.go:530-537 does not fire for a previous owner that is not
  subscribed any more. In `StickyUnsubscribed.EndsUnsubscribed` a partition ends with such a member, in
  `StickyUnsubscribed.EndsLost` with nobody.
* Sticky coverage after the revert branch (`StickyPlan.NotPutBackCovers`) holds exactly when no member
  set aside holds a partition, because balance_strategy.go:332-338 restores local maps only. The branch
  is taken in `StickyUnsubscribed.EndsReverting`, with a previous owner that is not subscribed any more;
  whether it can be taken while all are subscribed is open.
* A compressed batch is read back (`BatchCodec.BatchRoundTrip`) exactly when it has no more records than
  there are bytes after its header, because the array-length check at real_decoder.go:115 compares the
  number of records with the compressed bytes left. A batch that is not is `BatchCodec.OneRecordIsCutOff`.

## Model

| member | source | states |
|---|---|---|
| `RetryTheorems.StepKeeps` | async_producer.go:911-1003 | every step of the partition producer, the retry handler or a broker producer keeps the protocol invariant: queues in submission order, buffers and visits separated by retry level, one fin per level on its way |
| `RetryTheorems.RunKeeps` | async_producer.go:629-708 | the protocol invariant holds after every run of steps, whatever brokers, leaders and users do |
| `RetryTheorems.AcksFollowSubmissionOrder` | async_producer.go:629-753 | in every run with retries enabled, the messages acknowledged by brokers form a subsequence of submission order |
| `RetryTheorems.RetriesOffReorders` | async_producer.go:1104-1118 | with retries disabled there is a run in which message 2 is acknowledged before message 1, because an abandoned broker producer is left while it still holds messages |
| `RetryTheorems.OrderedIffRetriesOn` | async_producer.go:646-657 | acknowledgements follow submission order in all runs if and only if the retry limit is positive |
| `RetryLevels.RetryLevelInvariant` | async_producer.go:659-685 | in every reachable state, whatever the retry limit, the high watermark is the highest level that expects a chaser (or 0) and at most the limit, buffers at and above it are empty, each expecting level has exactly one fin on its way and other levels none, and no fin has been returned to the user |
| `RetryLevels.DispatchNeverStuck` | async_producer.go:710-753 | the next message of a partition producer always indexes an existing retry level, and a fin always meets a broker producer that is retrying |
| `RetryLedger.StepBooks` | async_producer.go:389-471 | one step changes neither the account of a single message nor the account of all messages, markers and control messages |
| `RetryLedger.SettlementConserved` | async_producer.go:1284-1334 | in every run the in-flight count equals the number of live messages, and each submitted message is live, acknowledged or failed, exactly one of these and exactly once; which of the two ends it has, and why, is stated by RetryFate.AckedIffStored and RetryFate.FailedOverRun |
| `RetryLedger.ClosedMeansSettled` | async_producer.go:1235-1250 | when the channels are closed no queue, buffer or produce set holds a message, and every submitted message has ended in one success or one error |
| `RetryFate.AckedBy` | async_producer.go:1085-1101 | every enabled step of whatever kind leaves the acknowledged messages alone, except a broker's word that it stored a set, which appends exactly that set's |
| `RetryFate.AckedIffStored` | async_producer.go:1070-1118 | over every run a message is acknowledged if and only if, at some step of it, a broker said it stored a set that the message was in |
| `RetryFate.RefusedFails` | async_producer.go:1081-1117 | a set that is refused, dropped, or retriable with retries off fails as a whole and in order, is acknowledged to no part, and nothing else of the broker producer or the queues changes |
| `RetryFate.RetriableHolds` | async_producer.go:1119-1153 | a retriable reply with retries on, like a lost connection, settles nothing: what was sent and what was buffered is held, in order, and nothing can be sent before it has been passed on |
| `RetryFate.AllEmitted` | async_producer.go:1321-1334 | passing on what is held ends, and by then each message below the retry limit is back on the retry queue one level higher and the others have failed, both in order |
| `RetryFate.TakeGoes` | async_producer.go:911-1003 | what a broker producer takes is buffered, or comes back one level higher while it is being retried, or fails, and a fin ends the retrying |
| `RetryFate.DispatchGoes` | async_producer.go:629-708 | dispatch told by level: a lower one is held or its chaser noted; at the level in use a message goes to the leader and a chaser has exactly what is held replayed; a higher one leaves a fin with the broker producer given up and goes to the leader found next, or fails when there is none |
| `RetryFate.DispatchLosesNothing` | async_producer.go:629-753 | with the leaders found no message fails in a dispatch, whatever is replayed |
| `RetryFate.SubmitGoes` | async_producer.go:389-471 | a submitted message joins the queue of its partition, or fails at once exactly when it is refused or the producer is shutting down |
| `RetryFate.FailsForReason` | async_producer.go:1284-1334 | a message fails in a step only if it is refused on submission, no leader is found for it, it does not fit into a set, it is at the retry limit, or the broker refused it |
| `RetryFate.FailedOverRun` | async_producer.go:1284-1309 | over every run a failed message failed by a step with such a reason |
| `PartitionProducers.PartitionProducer.constructor` | async_producer.go:589-602 | a new partition producer is in the initial state of the step system |
| `PartitionProducers.PartitionProducer.UpdateLeader` | async_producer.go:755-771 | a found leader gets its broker producer and a syn that counts as in flight; a failed lookup changes nothing |
| `PartitionProducers.PartitionProducer.ReturnBatch` | async_producer.go:1284-1309 | the loop settles every message of the batch as failed, in order |
| `PartitionProducers.PartitionProducer.NewHighWatermark` | async_producer.go:710-724 | a fin of the level below goes to the broker producer in use, which is then given up, and the level expects its chaser |
| `PartitionProducers.PartitionProducer.FlushRetryBuffers` | async_producer.go:726-753 | the loop replays held levels downwards, newest level first, through a leader or as errors, and stops at the first level that still expects a chaser |
| `PartitionProducers.PartitionProducer.Dispatch` | async_producer.go:629-708 | dispatching one message does to the object exactly what the step system says, in all four cases: first retry of a higher level, held, chaser, and forwarded |
| `FetchModel.SortTxnsSorts` | fetch_response.go:252-261 | the aborted transactions come in order of first offset, none lost or added |
| `ReadCommitted.TakeRecordsFilters` | consumer.go:656-683 | on increasing offsets, skipping what is behind the consumer is exactly the filter by offset, and the consumer ends behind the last record |
| `ReadCommitted.ReachBatch` | consumer.go:772-781 | on reaching a batch, the set of aborted producers is exactly those with a listed transaction begun by the end of the batch whose abort marker is still to come |
| `ReadCommitted.TracksPastBatch` | consumer.go:803-811 | passing a batch, abort markers included, keeps that correspondence between the two consumed lists and the log |
| `ReadCommitted.AbortingIsAborted` | consumer.go:815-821 | for a batch whose transaction is decided, its producer is in the set exactly when the transaction was aborted |
| `ReadCommitted.ScanOffset` | consumer.go:764-829 | scanning batches never fails or moves the offset back, and leaves it at most at the start of the next batch |
| `ReadCommitted.ScanShows` | consumer.go:764-829 | a scan over a stretch of the log exposes exactly the visible records between the fetched offset and the offset it leaves |
| `ReadCommittedRun.JumpPassesNothing` | consumer.go:743-747 | the jump over batches without records, forwards or backwards, passes no record |
| `ReadCommittedRun.ResponseRead` | consumer.go:685-830 | a response of whole batches exposes exactly what is visible between the old and the new offset |
| `ReadCommittedRun.HonestRead` | consumer.go:685-830 | any response exposes exactly what is visible between the old and the new offset, but for the one offset skipped; it ends in the size error exactly when it holds no record but a part of one and the fetch size is at its limit |
| `ReadCommittedRun.ReadsWhatIsVisible` | consumer.go:685-830 | over any sequence of responses to a well-formed log, of whatever sizes and with throttled, failed or cut-off ones among them, the messages handed out are exactly the visible records from the starting offset to the final one less those at the offsets skipped |
| `ReadCommittedRun.NothingLostIff` | consumer.go:725-732 | over such a run nothing visible is lost if and only if no visible record is at an offset skipped because the largest fetch held only a part of a message |
| `ReadCommittedRun.LargeMessageIsLost` | consumer.go:728-732 | a log, a configuration and a response for which a visible record is skipped and never handed out |
| `ReadCommittedRun.VisibleMembers` | consumer.go:789-824 | a message is visible exactly when it is a record in range of a data batch that is non-transactional or committed (or any data batch when uncommitted data is read) |
| `ReadCommittedRun.VisibleAscends` | consumer.go:656-683 | visible messages have strictly ascending offsets, so none is repeated |
| `OffsetMonotony.ScanClimbs` | consumer.go:764-829 | for arbitrary broker data, however batches and message sets are mixed or filtered, the offsets exposed ascend from the old to the new offset |
| `OffsetMonotony.OffsetFallsOnlyByJump` | consumer.go:721-750 | one response moves the offset back if and only if it has no records, is not partial, and names a last batch below the high watermark that begins two or more behind the consumer |
| `OffsetMonotony.OffsetsClimb` | consumer.go:622-683 | over any run without such a jump the offsets handed out are strictly increasing across calls and the consumer's offset never decreases |
| `OffsetMonotony.JumpBackRepeats` | consumer.go:743-747 | with such a jump a record is handed out twice: a concrete run of three responses |
| `OffsetMonotony.FetchSizeGrows` | consumer.go:728-742 | doubling the fetch size with 32-bit wrap-around doubles it or stops exactly at the limit, never at zero or below |
| `OffsetMonotony.FetchSizeInBounds` | consumer.go:728-753 | over any run the fetch size stays positive and at most the larger of the default and the limit |
| `OffsetMonotony.ScanFailsIff` | consumer.go:764-829 | a scan fails if and only if it holds a control record that cannot be read |
| `OffsetMonotony.OutcomeIs` | consumer.go:685-830 | a response is an error exactly when its block is missing or reports one or a control record cannot be read, and the size error exactly when an offset is skipped; a throttled one changes nothing |
| `OffsetMonotony.SetAdvances` | consumer.go:622-683 | for arbitrary data the offset is left one behind the last message exposed, or one further when none is |
| `OffsetMonotony.ResponseAdvances` | consumer.go:721-753 | a response with records moves the consumer on and resets the fetch size; a partial one leaves the offset and doubles the fetch size up to the limit, at which it moves on by exactly one |
| `LegacyRead.BlockOffsetsAre` | consumer.go:622-636 | of the messages in a block the last of version 1 is at the block's offset, distances between those of version 1 are as written, and those of version 0 are where they are written |
| `LegacyRead.WrappedAreRead` | message_set.go:10-17 | the messages a broker has wrapped, with relative or absolute offsets, are given back with the offsets they had |
| `LegacyRead.SetShows` | consumer.go:622-654 | a set of wrapped messages from a log with ascending offsets exposes exactly the messages from the consumer's offset on, with their offsets, and leaves the offset behind the last |
| `LegacyRead.ReadsTheLog` | consumer.go:685-830 | over any sequence of responses to a log of message sets, throttled, failed, partial or overlapping ones among them, exactly the messages from the starting to the final offset are handed out, with their offsets and in order, less those at skipped offsets |
| `LegacyBytes.LegacyBytesToUser` | fetch_response.go:138-187 | the same from bytes: however those of an encoded log of plain legacy messages are cut into responses |
| `PartitionConsumers.PartitionConsumer.ParseRecords` | consumer.go:656-683 | the loop over a batch yields the records not behind the offset and leaves the offset behind the last, or one further when there is none |
| `PartitionConsumers.PartitionConsumer.ParseMessages` | consumer.go:622-654 | the nested loops over a message set do the same with offsets made absolute for wrapped messages of version 1; LegacyRead.BlockOffsetsAre says which offsets these are and LegacyRead.SetShows which messages |
| `PartitionConsumers.PartitionConsumer.PopStarted` | consumer.go:772-781 | the loop moves exactly the transactions that begin by the end of the batch from the sorted list to the set |
| `PartitionConsumers.PartitionConsumer.ParseSet` | consumer.go:764-828 | one record set is consumed, filtered or exposed as in the recursive scan, and a control record that does not decode stops it |
| `PartitionConsumers.PartitionConsumer.ParseResponse` | consumer.go:685-830 | the whole method, errors and fetch-size changes included, computes the outcome and position of the response function the theorems are about, and takes over the high watermark exactly from responses with records |
| `FetchedBytes.BytesAreHonest` | fetch_response.go:138-187 | a response decoded from any number of bytes of a stretch of the encoded log decodes without error, to whole batches of the log from the fetched offset on or to a block without records that says it is partial |
| `FetchedBytes.BytesToUser` | consumer.go:685-830 | however the bytes of an encoded log of uncompressed batches are cut into responses, decoding and consuming them hands out exactly the visible records from the starting offset to the final one less those at skipped offsets |
| `FetchedBytes.SeenIs` | consumer.go:656-683 | every record is seen at its absolute offset, and its batch with its last offset, producer, transactional flag, and as data or marker |
| `StickyMovements.MoveKeepsIndex` | balance_strategy.go:915-963 | after any move the index holds a partition under a topic and pair exactly when the records map it to that pair, with no empty inner map |
| `StickyMovements.MoveKeepsSafe` | balance_strategy.go:942-990 | moving the partition chosen by the stickiness rule to a member other than the owner considered keeps every record's destination the owner and different from its source, and no two records of a topic opposite; the chosen partition has the same topic, and the same owner unless the one considered had moved before |
| `StickyMovements.PartitionMovements.RemoveMovementRecordOfPartition` | balance_strategy.go:915-928 | removes the record and its index entry, with inner maps that become empty, and returns the pair |
| `StickyMovements.PartitionMovements.AddPartitionMovementRecord` | balance_strategy.go:930-940 | adds the record and its index entry, and keeps the two in agreement |
| `StickyMovements.PartitionMovements.MovePartition` | balance_strategy.go:942-963 | a first move is recorded, a further one merged with the earlier, a move back forgotten |
| `StickyMovements.PartitionMovements.GetTheActualPartitionToBeMoved` | balance_strategy.go:965-990 | returns a partition whose move is thereby taken back when there is one, else the partition itself |
| `StickyScore.ScoreFromAny` | balance_strategy.go:441-455 | the score is the same whichever member is visited first, hence independent of map iteration order |
| `StickyScore.MoveChangesScore` | balance_strategy.go:441-455 | moving one partition lowers the score, by at least two, if and only if the source holds at least two more than the target; from one above it changes nothing, otherwise it raises it by at least two |
| `StickyScore.GetBalanceScore` | balance_strategy.go:441-455 | the two loops that consume the map compute the sum over unordered pairs of members |
| `StickyModel.ShiftKeepsSound` | balance_strategy.go:574-582 | a move keeps the assignment and the owner map mutually inverse, loses no placed partition, and keeps subscriptions when the target is subscribed |
| `StickyModel.ShiftLowersScore` | balance_strategy.go:574-582 | a move from a member with at least two more partitions lowers the balance score by two or more |
| `StickyModel.FixedIsOut` | balance_strategy.go:585-602 | a member set aside before reassignment is a potential consumer of no partition that several members may have |
| `StickyWork.StepKeepsWork` | balance_strategy.go:566-582 | one reassignment keeps movement safety, index agreement, inverse maps and readiness of all listed partitions, and only listed partitions change hands |
| `StickyAssignors.SortMemberIDsByPartitionAssignments` | balance_strategy.go:734-748 | all members, once each, by ascending load and among equal loads by ID |
| `StickyAssignors.IsBalanced` | balance_strategy.go:458-502 | true exactly when loads differ by at most one or no member that could have more could take a partition from a more loaded one |
| `StickyAssignors.StickyAssignor.ProcessPartitionMovement` | balance_strategy.go:574-582 | the partition changes list and owner, the movement is recorded, and the move is added to the history with the loads before it |
| `StickyAssignors.StickyAssignor.ReassignPartition` | balance_strategy.go:566-571 | moves the partition considered, or one whose move is thereby taken back, to its target: a turn of the loop that makes a move |
| `StickyAssignors.StickyAssignor.FirstPotential` | balance_strategy.go:556-563 | the member found may have the partition and comes first, by load and then by ID, among those that may |
| `StickyAssignors.StickyAssignor.ChooseTarget` | balance_strategy.go:524-548 | the previous owner is chosen exactly when it has at least two fewer partitions, else the first in line when any potential owner has; otherwise the turn rests |
| `StickyAssignors.StickyAssignor.Pass` | balance_strategy.go:510-551 | one pass is a sequence of turns, of which those after a balance is reached move nothing, and keeps everything in order |
| `StickyAssignors.StickyAssignor.PerformReassignments` | balance_strategy.go:505-553 | a run of passes that each make a move, ended by a pass that makes none, or by the bound on their number |
| `StickyTurns.TurnLowersScoreIff` | balance_strategy.go:529-548 | known before the move: the turn of a partition lowers the score if and only if the owner of the partition actually moved holds at least two more than the target, and then by at least two |
| `StickyTurns.TurnKeeps` | balance_strategy.go:524-548 | a turn keeps movement safety, index agreement, inverse maps and readiness, loses no placed partition, and without a move leaves everything as it is with the partition settled or a balance reached |
| `StickyTurns.PassKeeps` | balance_strategy.go:510-551 | the same for a pass; one without a move leaves the assignment balanced or every listed partition settled |
| `StickyTurns.RunKeeps` | balance_strategy.go:505-553 | the same for every run of the loop, and each pass makes at least one move |
| `StickyTurns.DownhillEnds` | balance_strategy.go:505-553 | with previous owners subscribed, a run of downhill moves makes at most half the initial score many passes and ends with a lower score |
| `StickyUniform.UniformEnds` | balance_strategy.go:505-553 | when all members may have all shared partitions and none of these has a previous owner, every run from the start makes downhill moves only, at most half the initial score many passes, and lowers the score if it moves anything |
| `StickyUniform.MovesItself` | balance_strategy.go:965-990 | under that condition a member that has received a partition never gives one, so the partition moved is the one considered and has not moved before |
| `StickyUniform.SparseEnds` | balance_strategy.go:505-553 | the same, from any point of the loop, when no topic has two partitions that several members may have and previous owners are subscribed |
| `StickyEndless.LaterPasses` | balance_strategy.go:510-551 | for a group of four members and eight shared partitions, after any number of passes from one on owners, loads and movement records are the same |
| `StickyEndless.EveryPassMoves` | balance_strategy.go:505-553 | for that group the pass after any number of passes makes a move, so the loop never ends |
| `StickyEndlessPlan.NeverPlanned` | balance_strategy.go:172-271 | subscriptions and reports, with every previous owner subscribed, for which no number of passes makes a plan |
| `StickyUnsubscribed.TurnKeepsSubscribedIff` | balance_strategy.go:529-537 | a turn keeps every member subscribed to what it holds if and only if not: no balance is reached, and the previous owner has at least two fewer partitions and is not subscribed; whichever partition of the topic is actually moved |
| `StickyUnsubscribed.MoveKeepsSubscribedIff` | balance_strategy.go:574-582 | a single move keeps every member subscribed to what it holds if and only if its target is subscribed |
| `StickyUnsubscribed.MovedToFixedIsLost` | balance_strategy.go:340-343 | a partition moved to a member that has been set aside is with nobody after that member is put back |
| `StickyUnsubscribed.EndsUnsubscribed` | balance_strategy.go:529-537 | a group for which the loop, when it is done, has given a partition to its previous owner, not subscribed any more |
| `StickyUnsubscribed.EndsLost` | balance_strategy.go:311-343 | a group for which that previous owner is set aside, so that the partition ends with nobody though two members may have it |
| `StickyUnsubscribed.EndsReverting` | balance_strategy.go:330-343 | a group for which the loop, when it is done, meets the condition of the revert branch: everybody held something, something moved, and the score is not lower; one partition ends with a member not subscribed to it and another with nobody |
| `StickyPlan.AssignPartition` | balance_strategy.go:610-619 | the partition goes to the first member, by load and then by ID, among those that may have it |
| `StickyPlan.AssignUnassigned` | balance_strategy.go:295-302 | afterwards every partition with a potential consumer is placed at exactly one subscribed member, and members still hold what they held |
| `StickyPlan.Reassignable` | balance_strategy.go:304-309 | what is left to the loop are exactly the partitions several members may have, in the order given |
| `StickyPlan.CanConsumerParticipate` | balance_strategy.go:585-602 | false exactly for members that hold all they may have, none of which anyone else may have |
| `StickyPlan.SplitFixed` | balance_strategy.go:311-319 | the members set aside are exactly those that cannot take part, with what they hold |
| `StickyPlan.PutBackCovers` | balance_strategy.go:340-343 | with the members set aside put back, every partition that has a potential consumer belongs to exactly one member, subscribed to it |
| `StickyPlan.NotPutBackCovers` | balance_strategy.go:332-343 | after the revert branch, which restores local maps only, the caller's assignment covers if and only if no member set aside holds a partition |
| `StickyPrepare.PrepopulateCurrentAssignments` | balance_strategy.go:835-893 | of several claims to a partition the one of the latest generation counts, a previous owner is remembered exactly when there are claims of several generations and is a claimant of the next earlier one, and no partition is listed twice |
| `StickyPrepare.UnversionedIsOldest` | balance_strategy.go:835-893 | reports without a generation are older than any report with one |
| `StickyPrepare.BuildGroup` | balance_strategy.go:188-211 | potential consumers of a partition are exactly the subscribers of its topic, each once unless a topic or partition is listed twice, and the two maps mirror each other |
| `StickyPrepare.KeepValid` | balance_strategy.go:217-246 | members keep exactly the partitions they hold that exist and to whose topics they are subscribed; every other known partition is left to assign, once |
| `StickyBalance.Balance` | balance_strategy.go:292-344 | what members held they hold when the loop begins; the loop is a run as above; the revert branch is taken if and only if the loop is done, the least loaded member held something, something moved and the score is not lower; then the members set aside are missing, else they are put back |
| `StickyBalance.LoopCovers` | balance_strategy.go:321-343 | with previous owners subscribed every run leads to an assignment that covers once the members set aside are put back, and without them exactly when they hold nothing |
| `StickyBalance.LoopEnds` | balance_strategy.go:321-338 | under the conditions of StickyUniform.UniformEnds or StickyUniform.SparseEnds the loop of a plan ends within half the score it begins with, and is not reverted |
| `StickyBalance.Plan` | balance_strategy.go:172-271 | a whole plan, in terms of members, subscriptions and topics: with previous owners subscribed and the loop done, each partition of a subscribed topic is given to exactly one subscriber and nothing else is given, unless it is reverted, which has its exact condition, and then exactly when members set aside hold nothing; movement safety always; with members subscribed alike and no claims of several generations, or one partition a topic and previous owners subscribed, the loop ends and is not reverted |
| `Assignors.Uniq` | balance_strategy.go:134-149 | the in-place loop of swaps leaves a strictly ascending prefix with exactly the original members |
| `RangePlan.SortedUniq` | balance_strategy.go:134-149 | the subscribers of a topic, sorted and de-duplicated |
| `Assignors.Range` | balance_strategy.go:72-87 | the slices tile the partition list exactly and in order, sizes differing by at most one with the larger first |
| `RangePlan.MakePlan` | balance_strategy.go:125-157 | every topic with subscribers is shared out among exactly these, each once and in order of ID, by slices that tile its partitions in order with sizes that differ by at most one; nothing else is given |
| `RangePlan.ExactlyOneSubscriber` | balance_strategy.go:125-157 | in such a plan every partition of a topic with subscribers goes to a subscriber, to exactly one if it is listed once |
| `Assignors.RoundRobin` | balance_strategy.go:399-411 | when every topic has a subscriber the search ends within one round, and each partition goes to the first subscriber whose turn follows that of the partition before |
| `Assignors.UnservedNeverFound` | balance_strategy.go:404-407 | the inner search can end if and only if the topic has a subscriber |
| `Assignors.RoundRobinFair` | balance_strategy.go:399-411 | under identical subscriptions the loads of any two members differ by at most one |
| `Wire.IntRoundTrip` | real_encoder.go:20-38 | a signed integer of any width is read back as it was written, in the form stated by Wire.PutIntIsInt |
| `Wire.PutUintAt` | real_encoder.go:20-38 | byte i of w is the value divided by 256 to the power w - 1 - i, modulo 256 |
| `Wire.PutIntIsInt` | real_encoder.go:20-38 | the bytes of a signed integer are, most significant first, those of its two's complement |
| `Wire.VarintRoundTrip` | real_decoder.go:68-80 | a 64-bit varint is read back with exactly the bytes written, at most ten |
| `Wire.PutUvarintSevenBits` | real_encoder.go:40-46 | the bytes are the groups of seven bits, lowest first, with the high bit on all but the last, and no more than needed |
| `Wire.PutVarintIsVarint` | real_encoder.go:40-42 | a signed varint is the unsigned one of the number's place in 0, -1, 1, -2, 2 and so on |
| `Encoding.PrimExact` | prep_encoder.go:19-184 | for every primitive the sizing pass accepts, the size it counts is the number of bytes the writing pass writes |
| `WireLayout.PrimLayout` | real_encoder.go:20-194 | every primitive is laid out as the format has it: integers big-endian, varints in seven-bit groups, and strings, bytes and arrays as their length in the form of that kind, or -1 or 0 for null, followed by exactly their content |
| `WireLayout.FieldLayout` | length_field.go:48-91 | a length field holds the length, and a checksum field the checksum, of exactly what follows it |
| `WireChecks.SizedIff` | prep_encoder.go:49-184 | the sizing pass accepts exactly strings of up to 32767 bytes and byte strings and arrays of up to 2147483647 |
| `Encoding.PushField.AdjustLength` | length_field.go:76-81 | the field takes the length written since it was pushed, and the change of its own width is returned |
| `TwoPass.PrepEncoder.Push` | prep_encoder.go:192-196 | the field remembers where it began and reserves the width of its current, possibly stale, length |
| `TwoPass.PrepEncoder.Pop` | prep_encoder.go:198-206 | a varint field is set to its body's length and the total corrected by the change of its width |
| `TwoPass.Size` | prep_encoder.go:192-206 | for any well-nested calls and any stale lengths, the sizing pass accepts exactly the sizable ones, counts exactly the bytes they stand for, and leaves every varint field with the length of its body |
| `TwoPass.RealEncoder.Pop` | real_encoder.go:208-214 | only the reserved bytes change, and they hold the length or checksum of what follows them |
| `TwoPass.Write` | real_encoder.go:202-214 | after a sizing pass, the buffer from the current offset on holds exactly the bytes the calls stand for, and nothing before it has changed |
| `TwoPass.Encode` | encoder_decoder.go:21-46 | an encoding succeeds exactly when the sizing pass accepts and the size is within the limit, and the buffer is filled to its end with the bytes the calls stand for, which WireLayout.PrimLayout and WireLayout.FieldLayout lay out |
| `Decoding.RealDecoder.GetArrayLength` | real_decoder.go:108-122 | a length beyond the bytes left is too short and moves the cursor to the end, one beyond 131070 invalid |
| `Decoding.RealDecoder.GetVarintBytes` | real_decoder.go:188-198 | length -1 gives nil, other lengths that many bytes, with the cursor behind them or at the end when too few are left |
| `WireChecks.VarintBounded` | real_decoder.go:68-80 | whatever the input, a varint that is read has at most ten bytes and fits 64 bits |
| `WireChecks.ArrayLengthChecked` | real_decoder.go:108-122 | the exact outcome for every input: too short when more elements are announced than bytes are left, invalid beyond 131070, else the length |
| `RecordCodec.RecordRead` | record.go:72-116 | a written record is read back as it was, nil and empty fields told apart, and the cursor stops exactly behind it |
| `RecordCodec.DecodeRecord` | record.go:72-116 | reading with the cursor, header loop and length check included, agrees with the reading function on every input |
| `WireLayout.RecordLayout` | record.go:50-70 | a record is the varint length of its body and then attributes, time and offset deltas, key, value and headers, in order, with the time in milliseconds |
| `WireChecks.AcceptedRecord` | record.go:72-116 | whatever the input, a record that is accepted takes exactly the bytes its length says |
| `BatchCodec.OverheadExact` | record_batch.go:9-9 | the overhead constant 49 is exactly what the header after the length field adds to the records |
| `BatchCodec.AttributesRoundTrip` | record_batch.go:210-222 | codec, timestamp type, transactional and control bits are all recovered from the attributes |
| `BatchCodec.TimeRoundTrip` | timestamp.go:12-41 | the zero time and times in whole milliseconds since 1970 survive |
| `BatchCodec.BatchRoundTrip` | record_batch.go:102-196 | an encoded batch of at most 131070 records, compressed or not, is read back as it was with what follows left over, if and only if there are not more records than bytes after the header; otherwise it is taken to be cut off |
| `BatchCodec.SqueezedIsCutOff` | record_batch.go:102-196 | any batch of records, compressed by a codec that squeezes them to nothing, with nothing behind it, is taken to be cut off |
| `BatchCodec.OneRecordIsCutOff` | real_decoder.go:108-122 | a batch of one record and a compressor with an inverse for which that happens |
| `BatchCodec.PlainBatchRoundTrip` | record_batch.go:59-196 | without compression an encoded batch always comes back |
| `WireLayout.BatchLayout` | record_batch.go:59-100 | every header field is at its byte position, attributes bit by bit and times in milliseconds, the length counts what follows it, the checksum covers all from the attributes on, and the compressed records come last |
| `WireChecks.AcceptedBatch` | record_batch.go:102-196 | whatever the input, a batch accepted as a whole is as long as it says, up to what is left over, and has the checksum it says |
| `WireChecks.RecordsOutcome` | record_batch.go:160-196 | with the data there, a wrong checksum, records that do not decompress, or bytes behind the records are errors, and too few bytes for the records make the batch partial |
| `WireChecks.UnwritableTime` | timestamp.go:12-23 | the times that cannot be written are exactly those before 1970 other than the zero time |
| `RecordBatches.RecordsCallsEncoded` | record_batch.go:13-20 | the calls for an array of records stand for the records' bytes one after the other, with a length field each |
| `RecordBatches.BatchCallsEncoded` | record_batch.go:59-100 | the calls for a batch stand for the batch's bytes, length and checksum over exactly their bodies |
| `RecordBatches.RecordBatch.EncodeRecords` | record_batch.go:198-208 | the cache holds the compressed encoding of the records; it fails exactly when they cannot be encoded within the limit |
| `RecordBatches.RecordBatch.Encode` | record_batch.go:59-100 | success gives the bytes of the batch with the cached records, and failure is due to version, times, number or size |
| `RecordBatches.DecodeBatch` | record_batch.go:102-196 | decoding with the cursor agrees with the reading function on every input, partial batches included |
| `LegacyCodec.BlockRead` | message_set.go:29-51 | an uncompressed message of version 0 or 1 is read back as it was, up to exactly its end |
| `LegacyCodec.WrapperRead` | message.go:126-184 | a compressed message is read back with what its value decompresses to and the set decoded from that, and refused if it does not decompress |
| `WireLayout.MessageLayout` | message.go:82-124 | offset, length, checksum from the version on, version, attributes, from version 1 on the time in milliseconds, key and value are at their places |
| `WireChecks.AcceptedMessage` | message_set.go:29-57 | whatever the input, a message that is accepted is as long as it says and has the checksum it says |
| `WireChecks.CutMarks` | message_set.go:85-100 | a cut message marks its set as partial, or as overflown exactly when its offset is -1 |
| `LegacyCodec.DecodeMessageSet` | message_set.go:69-106 | the loop agrees with the recursive reading of a set: it stops at the end, at a later format, or at a cut message, flagged partial or overflow |
| `Truncation.BatchCut` | record_batch.go:160-174 | a batch cut anywhere inside is not an error: it reads as too short or as partial |
| `Truncation.CutStream` | fetch_response.go:138-187 | whatever has been read before, any number of bytes of a stream of batches decodes without error to the complete ones |
| `Truncation.TruncatedFetch` | fetch_response.go:138-214 | any cut of a stream of non-empty uncompressed batches gives exactly the complete batches; with none complete and a byte left, a block without records that is reported partial |
| `Truncation.CompleteIsMost` | fetch_response.go:138-187 | the complete batches are the most that fit into the bytes that arrived |
| `Truncation.DecodeSets` | fetch_response.go:138-187 | the decoding loop agrees with its recursive form |
| `LegacyTruncation.CutSet` | message_set.go:69-106 | any cut of a message set decodes without error to exactly its complete messages, flagged partial exactly when bytes are left over |
| `LegacyTruncation.CutLegacyFetch` | fetch_response.go:138-214 | the same for a fetched block: one record set of the complete messages, or a block without records that is reported partial |
| `ProduceSets.RecordBound` | record.go:11-11 | a record never takes more bytes than the overhead constant and the header allowance estimate |
| `ProduceSets.RequestBound` | produce_set.go:164-170 | an uncompressed batch of a request takes at most twelve bytes more than its partition's buffer count |
| `ProduceSets.ProduceSet.Add` | produce_set.go:35-128 | byte and message counts stay the sums over partitions, messages and records stay aligned, the first timestamp plus a record's delta is the time of its message in whole milliseconds, the size added is the message's estimate plus the overhead of a new batch, and exactly a message that does not encode or is out of sequence is refused, changing nothing |
| `ProduceSets.TakeMessage` | async_producer.go:961-980 | a set is rolled over exactly when the request size, the batch size or the number of messages would be exceeded; asking before each message, and not again for the new set, keeps every partition of more than one message below the batch limit, every set of more than one message below the request limit plus one batch overhead, and the count within the maximum; the message is in the set in use exactly when it is accepted |
| `ProduceSets.ProduceSet.DropPartition` | produce_set.go:228-240 | exactly that partition's messages are taken out and the counts follow |
| `ProduceSets.ProduceSet.BuildRequest` | produce_set.go:152-178 | the i-th message of a partition is carried, with its time, by the record with offset delta i, the last delta is the number of messages less one, and the first sequence is that of the first message |
| `ClientCache.Client.UpdateBroker` | client.go:723-745 | exactly the brokers the response lists stay registered, each at the address it lists last |
| `ClientCache.Client.UpdateMetadata` | client.go:1092-1157 | after any response on an open client a topic is cached exactly when its metadata is known, with the sorted IDs of all and of writable partitions; the last word on each topic counts; a retry is asked for exactly when a topic is unknown, has no leader, or has no error but a leaderless partition; a closed client is unchanged |
| `ClientCache.Client.SetPartitionCache` | client.go:857-874 | one list has the IDs of all known partitions, the other of exactly those without a missing-leader error, each ascending without repetition |
| `ClientCache.UpdatedTakesLastWord` | client.go:1118-1154 | whatever was known before, a topic a response names is known afterwards exactly when the error it is last named with is none or a missing leader, with exactly the partitions listed there, leaderless ones included; other topics are as before |
| `ClientCache.ByIDHolds` | client.go:1141-1144 | the partitions known of a topic are exactly those listed, each as it is listed last |
| `ClientCache.AddressesHold` | client.go:723-745 | the brokers known are exactly those listed, each at the address it is listed with last |
| `ClientCache.Client.DeregisterBroker` | client.go:768-782 | a registered broker is removed, else the first seed moves to the dead ones; seeds are conserved |
| `ClientCache.Client.ResurrectDeadBrokers` | client.go:784-791 | dead seeds rejoin behind the living ones; seeds are conserved |
| `ClientCache.Client.LeastLoadedBroker` | client.go:795-818 | a registered broker with the fewest pending requests, else the first seed, else none |
| `ClientCache.Client.NextBroker` | client.go:1056-1076 | taking out a failed broker leaves exactly one fewer in play, and the next is one of these |
| `ClientCache.Client.Ask` | client.go:1015-1079 | brokers are asked one after the other up to the first reply that answers with brokers, cannot be sent or refuses for good; if there is none, every broker in play is asked unless time is up; what follows from the last reply is exact, and success means the client holds what it said |
| `ClientCache.Client.TryRefreshMetadata` | client.go:988-1089 | the refresh ends for every behaviour of brokers and clock, keeps cache and metadata in agreement and loses no seed broker; it ends at the first reply that leaves nothing to ask again, and without one only when its attempts are used up, time is up or another refresh was recent; every attempt asks a broker; it succeeds only with what the last reply said, and on a reply that settles it exactly when that is an answer without refused topics |
| `OffsetManagers.OffsetManager.MarkOffset` | offset_manager.go:558-567 | only a larger offset is taken, and it makes the manager dirty |
| `OffsetManagers.OffsetManager.ResetOffset` | offset_manager.go:569-578 | only an offset not larger is taken, and it makes the manager dirty |
| `OffsetManagers.OffsetManager.AsyncClose` | offset_manager.go:600-604 | the manager is marked as closed and nothing else changes |
| `OffsetManagers.OffsetManager.ManagePartition` | offset_manager.go:87-108 | a partition not managed yet starts clean at the offset fetched; a managed one is refused unchanged |
| `OffsetManagers.OffsetManager.ConstructRequest` | offset_manager.go:276-345 | the request holds the mark of every dirty manager and no other, and there is none exactly when all are clean |
| `OffsetManagers.OffsetManager.HandleResponse` | offset_manager.go:347-399 | a clean manager always holds what was fetched at first or last acknowledged, and a manager becomes clean only when it still holds what the broker stored |
| `OffsetManagers.OffsetManager.ReleasePOMs` | offset_manager.go:424-446 | removed are exactly the closed managers that are clean, or all closed ones when forced |
| `OffsetManagers.OffsetManager.Flush` | offset_manager.go:253-274 | every dirty manager is clean with its mark acknowledged exactly when the broker was reached and stored it; all others are as before |
| `OffsetManagers.OffsetManager.Commit` | offset_manager.go:248-251 | the same, and those closed and clean by then, and no others, are released |
| `OffsetManagers.OffsetManager.FlushAll` | offset_manager.go:121-129 | what is left after the attempts are exactly the dirty managers that no answer among them stored, unchanged; all others had their marks acknowledged |
| `OffsetManagers.OffsetManager.Close` | offset_manager.go:110-137 | afterwards nothing is managed; a manager is reported lost if and only if it was dirty and, with automatic commits, no answer from the first to the last retry stored it; all others had their last mark acknowledged, and lost ones keep what was acknowledged before |

## Left out

- StickyAssignors.StickyAssignor.PerformReassignments: a parameter bounds its passes, because the loop need not end.
- StickyUniform.UniformEnds: its condition, like that of SparseEnds, is sufficient for the loop to end and not to be reverted; an exact condition is open.
- StickyBalance.Plan: the order in which partitions are considered is a parameter (any order of the known partitions), so `sortPartitions` and its priority queue are not modelled; user data arrives decoded; the grouping of a member's partitions by topic is left out.
- TwoPass.Size: a length field occurs at most once among the calls; an array that holds the same record object twice is not covered.
- TwoPass.Encode: lengths are unbounded integers; the limit on the request size is a parameter.
- FetchedBytes.BytesToUser: the batches of the log are uncompressed and have records; what records and control records contain is abstract.
- OffsetMonotony.OffsetsClimb: offsets are unbounded integers; 64-bit overflow of an offset is not modelled.
- LegacyCodec.BlockRead: the round trip is for uncompressed messages; for compressed ones LegacyCodec.WrapperRead takes decompression and the set in it as a parameter.
- LegacyBytes.LegacyBytesToUser: the messages of the log are uncompressed; for wrapped ones LegacyRead.ReadsTheLog begins after decompression.
- ProduceSets.ProduceSet.Add: covers the v2 record format; the legacy message sets of brokers before 0.11 are not modelled.
- ProduceSets.ProduceSet.BuildRequest: covers requests of v2 batches; those of legacy message sets are not modelled.
- ProduceSets.TakeMessage: the roll-over that a new producer epoch forces is not modelled, nor are the conditions for sending a set.
- ClientCache.Client.TryRefreshMetadata: nothing else changes the broker lists while a refresh runs; seed brokers have no ID that is also registered.
- OffsetManagers.OffsetManager.HandleResponse: commits follow one another, as they do with automatic commits; a commit by the user concurrent with another is not modelled.
- OffsetManagers.OffsetManager.Close: no mark or reset comes while it runs.
- Producer sets pipelined beyond one per broker producer, `retryBatch`, idempotent and transactional sequencing: outside the ordering claim.
- Channels are unbounded first-in first-out queues, and an abandoned broker producer is one whose own request failed with retries disabled.
- Timestamps, metrics, interceptors and the preferred read replica of consumed messages: carried along, with no property of their own.
- Stack discipline of the decoder's push and pop: the length and checksum checks are modelled where they are used.
- Slices are values: sharing of backing arrays between slices is not modelled.
- Compression and checksum algorithms: abstract functions.
- Network, TLS, SASL, Kerberos and connection handling; clocks, backoff and timers, which are choices of the environment.
- The remaining request and response types, `admin.go`, `config.go`, `consumer_group.go`, mocks and tools: they would add easy members.
- `isLinked`, `hasCycles` and `isSticky`: a diagnostic search that planning does not use; freedom from two-cycles is proved directly.
