# Verified model of a Kafka-style broker

This project models the replication and storage core of the broker and proves what that core is
for: followers end up with prefixes of their leader's log, acknowledged records are where they
are said to be, the log on disk behaves like a flat list of batches, and the controller never
gives one leader epoch two leaders.

`dafny verify dfyconfig.toml` checks everything.

## How it is built

A *batch* has a base offset, a record count, a leader epoch, a size in bytes and the rest of its
bytes. A *log* is a list of batches that follow one another from offset 0. A *replica log* is a
log together with the leader-epoch cache kept beside it.

| part | modules |
|---|---|
| Epoch cache, and its relation to the log | `Batches`, `EpochCache`, `EpochMirror`, `EpochRecovery` |
| Truncation by leader epoch (KIP-101, KIP-279) | `Reconciliation`, `ReconciliationRuns`, `ReconciliationSuccess`, `Divergence` |
| One partition: roles, high watermark, ISR, waiting requests | `PartitionModel`, `PartitionRuns`, `Purgatory`, `Partitions` |
| Several brokers and messages that are delayed, repeated, reordered or lost | `Cluster`, `ClusterSafety`, `Progress`, `Incidents` |
| Segments, sparse index, rolling, truncation, reads | `Segments`, `SegmentPairs`, `SegmentLayout`, `SegmentedLog` |
| Controller state machine and its snapshots | `Controller`, `ControllerEffects`, `ControllerSafety`, `Snapshots`, `ControllerFsm` |
| Batches as bytes (magic 2, KIP-98) | `RawBatches`, `Varints`, `Codec`, `Encoders` |

Stateful Go types are classes (`LeaderEpochCache`, `Segment`, `Index`, `SegmentPair`, `Log`,
`WaiterQueue`, `Partition`, `Fsm`, `Encoder`). Each of their methods is proved equal to a
function on values, and the theorems are about those functions.

Reading aid:

- `Runs(bs)` is the run-length compression of the epochs of a log. `Mirrors(cache, bs)` says that
  a cache is `Runs(bs)`, plus at most one entry at the log end. `Coherent` replica logs have that.
- `Histories` maps an epoch to the log of the one leader that epoch had. `Grounded` says that what
  a replica has up to the end of each epoch in its cache is a prefix of that epoch's history.
- `UpTo(bs, o)` are the batches that end at or below `o`. `IsBoundary` says some batch ends, or the
  log starts, exactly at `o`.
- `Safe` is the cluster invariant. It holds of every state that a run of steps with the three
  conditions of `Clean` reaches; `SafeIffClean` shows that any other step breaks the invariant.
  The conditions speak only of the state before the step.

Seven plausible claims are false of the code. For each there is a concrete input on which it
fails, and the condition under which it holds:

| claim | input on which it fails | condition |
|---|---|---|
| a successful reconciliation leaves a prefix of the leader | `UnknownExitCanDiverge`; in a run of the cluster `UnknownEpochDiverges` | `ReconciledIsPrefix`: always on the equal-epoch exit; `UnknownExitIsPrefix`: on the unknown-epoch exit iff the last answer ended at offset 0 |
| reconciliation with a leader that answers gets done | `SplitBatchBlocks`: an answer inside a batch is refused again and again | `RejectedIffSplit`: a round fails iff its answer ends inside a batch that is not later than the answered epoch; `PrefixAgrees` and `AlignedNeverFails`: never for a follower that is a prefix, or when the leader's epochs start between its batches |
| a late answer of an earlier leader does no harm | `LateAnswerCutsAcked`: an acknowledged batch is lost | `SafeIffClean`: iff no offset the follower has requested in its current epoch lies past the cut |
| a request that waits for all acknowledgements waits for all its records | `WideRequestIsWokenEarly`: two of three batches are on no follower | `RequiredIsLogEnd`: iff the request has at most 2^32 records |
| a replica append keeps the cache a mirror of the log | `ReplicaAppendCanCutHistory`; in a run of the cluster `UnusedEpochCutsHistory` | `ReplicaAppendMirror`: iff the first epoch fits the cache |
| an index lookup never starts past the offset | `WideSegmentMisses` | `LookupIffNear`: iff the last indexed batch starts less than 2^32 offsets into the segment |
| recovery gives back the mirror of the log | `StaleCheckpointIsTrusted` | `RecoversGrownLog`: with a checkpoint of an older log iff everything written since carries the checkpoint's latest epoch; `RecoversFromLog`: without a usable one iff the log's epochs never decrease; `RecoversLostTail`: always with the checkpoint of a longer log |

## Model

| member | source | states |
|---|---|---|
| `EpochCache.AssignedIncreasing` | internal/log/epoch_cache.go:27-61 | from any strictly increasing cache, assigning an epoch gives a strictly increasing cache whose latest epoch is that one |
| `EpochCache.AssignedKeeps` | internal/log/epoch_cache.go:51-59 | exactly the entries smaller in both epoch and start survive an assignment to a strictly increasing cache |
| `EpochCache.QueriesDual` | internal/log/epoch_cache.go:78-134 | for every offset and epoch the cache covers, the offset's epoch is at most `e` iff the offset is below the end of `e` |
| `EpochCache.EndOffsetForIdempotent` | internal/log/epoch_cache.go:97-134 | asking again for the epoch that was answered gives the same answer |
| `EpochCache.EndOffsetForIs` | internal/log/epoch_cache.go:97-134 | an answer is the last entry not above the epoch with the start of the next one, or the first start for epochs before all entries |
| `EpochCache.StartsBelowUnique` | internal/log/epoch_cache.go:63-76 | the cut of a cache at an offset is its one prefix with starts below and the rest at or above |
| `EpochCache.LeaderEpochCache.Assign` | internal/log/epoch_cache.go:27-61 | the in-place cut and append is the assignment, negative epochs are rejected without effect, and `changed` is exact |
| `EpochCache.LeaderEpochCache.TruncateFromEnd` | internal/log/epoch_cache.go:63-76 | keeps exactly the entries that start below the offset; `changed` is exact |
| `EpochCache.LeaderEpochCache.TruncateAfter` | internal/log/epoch_cache.go:136-150 | keeps exactly the entries that start at or below the offset; `changed` is exact |
| `EpochCache.LeaderEpochCache.EpochOf` | internal/log/epoch_cache.go:78-95 | the search loop finds the epoch of the last entry starting at or below the offset |
| `EpochCache.LeaderEpochCache.EndOffset` | internal/log/epoch_cache.go:97-134 | the search loop gives the answer that `QueriesDual` and `EndOffsetForIdempotent` are about |
| `EpochMirror.RunsIncreasing` | internal/log/log_raw.go:95-116 | epochs that never decrease compress to a strictly increasing cache |
| `EpochMirror.IncreasingRunsNonDecreasing` | internal/log/log_raw.go:95-116 | conversely, a strictly increasing compression comes from epochs that never decrease |
| `EpochMirror.AssignKeepsMirror` | internal/log/epoch_lifecycle.go:16-33 | a new leader's epoch at the log end keeps the cache a mirror, replacing an unused trailing entry |
| `EpochMirror.LeaderAppendKeepsMirror` | internal/log/log_raw.go:8-57 | a leader append under the latest cached epoch keeps the cache a mirror without touching it |
| `EpochMirror.TruncateKeepsMirror` | internal/log/truncate.go:81-86 | truncating log and cache at a batch boundary leaves exactly the compression of the remaining log |
| `EpochMirror.ReplicaAppendMirror` | internal/log/log_raw.go:95-143 | after a replica append the cache mirrors the log iff the first appended epoch fits it |
| `Divergence.ReplicaAppendCanCutHistory` | internal/log/epoch_cache.go:51-59 | a follower with an unused trailing epoch loses the real start of an earlier epoch |
| `EpochRecovery.ReplayIsIdentity` | internal/log/epoch_recovery.go:110-118 | replaying entries gives a valid cache, and changes nothing iff they already were one |
| `EpochRecovery.ScanEpochHistory` | internal/log/epoch_recovery.go:13-61 | the scan gives the run-length compression of the batches that carry an epoch |
| `EpochRecovery.ReplayEntries` | internal/log/epoch_recovery.go:110-118 | the replay loop assigns all entries in order |
| `EpochRecovery.RecoverFromBatches` | internal/log/epoch_recovery.go:86-98 | the cache rebuilt from the log, cut to the log end |
| `EpochRecovery.RecoverEpochCache` | internal/log/epoch_recovery.go:63-108 | the recovered cache, and the checkpoint is rewritten iff it changed or was empty for a non-empty log |
| `EpochRecovery.RecoveredIsValid` | internal/log/epoch_checkpoint.go:138-158 | whatever the checkpoint says, the recovered cache is strictly increasing and within the log, and any limit on loaded starts and batch offsets, such as the writer's 63 bits, holds of its starts |
| `EpochRecovery.RecoversLostTail` | internal/log/epoch_recovery.go:63-108 | from the checkpoint of a longer log whose tail was lost, the result mirrors what survived |
| `EpochRecovery.RecoversFromLog` | internal/log/epoch_recovery.go:82-98 | without a usable checkpoint the result mirrors the log iff its epochs never decrease, and then is its compression |
| `EpochRecovery.RecoversGrownLog` | internal/log/epoch_recovery.go:72-98 | a checkpoint of an older log is kept as it is, and mirrors the grown log iff everything written since carries the checkpoint's latest epoch |
| `EpochRecovery.StaleCheckpointIsTrusted` | internal/log/epoch_recovery.go:77-83 | a checkpoint that mirrors the first batch of a longer log is kept unchanged although it does not mirror the log |
| `Reconciliation.TruncateSucceeds` | internal/log/truncate.go:10-98 | truncation succeeds iff the offset is a batch boundary of the log |
| `Reconciliation.TruncateIs` | internal/log/truncate.go:10-98 | a truncated log has exactly the batches up to the offset, ends there, and is again coherent |
| `Reconciliation.TruncateKeepsGrounded` | internal/broker/fetch_manager.go:295-307 | truncation keeps every cached epoch's log part a prefix of that epoch's history |
| `Reconciliation.SettledRoundIsPrefix` | internal/broker/fetch_manager.go:294-312 | a round that ends on equal epochs leaves the follower a prefix of the leader |
| `Reconciliation.RoundKeepsCommon` | internal/broker/fetch_manager.go:294-307 | one round keeps every prefix that follower and leader have in common |
| `Reconciliation.RoundContinues` | internal/broker/fetch_manager.go:309-312 | a round that continues does so with a smaller epoch of the follower's own cache, and bounds the epochs left in its log |
| `Reconciliation.PrefixIffConfirmed` | internal/broker/fetch_manager.go:309-311 | a follower is a prefix of the leader iff the leader's answer for the follower's last epoch confirms its end |
| `Reconciliation.UnknownCut` | internal/broker/fetch_manager.go:295-311 | an unknown-epoch round cuts to the end of the answer, and leaves a prefix of anything the leader writes later iff that end is 0 |
| `ReconciliationSuccess.RejectedIffSplit` | internal/broker/fetch_manager.go:290-307 | a round fails iff the call fails, the answer is undefined, or it ends inside a batch of the follower that is not later than the answered epoch; the follower then stays as it is |
| `ReconciliationSuccess.SharedEpochSettles` | internal/broker/fetch_manager.go:294-311 | when the leader answers with an epoch the follower has, the round settles at the earlier of its two ends |
| `ReconciliationRuns.LastRound` | internal/broker/fetch_manager.go:271-314 | what every continued round hands on holds just before the round that ends the run, and that round decides the result |
| `ReconciliationRuns.ReconciledIsPrefix` | internal/broker/fetch_manager.go:265-315 | after any number of rounds against a leader whose log may grow, the follower is consistent with the histories, and the equal-epoch exit leaves a prefix of the leader |
| `ReconciliationRuns.UnknownExitIsPrefix` | internal/broker/fetch_manager.go:295-311 | against a growing leader of one epoch, the unknown-epoch exit leaves a log that ends where the last answer did, and a prefix of the leader iff that end is 0, so iff the log is empty |
| `ReconciliationRuns.NoOverTruncation` | internal/broker/fetch_manager.go:265-315 | on every exit, errors included, nothing of the longest common prefix is cut, and a follower that is a prefix is not changed |
| `ReconciliationRuns.ReconcileConverges` | internal/broker/fetch_manager.go:271-315 | there are at most as many rounds as cached epochs, so with at most 32 the run never fails to converge |
| `ReconciliationRuns.ConvergesWithLeader` | internal/broker/handler.go:569-621 | the same for the answers of any leader, whatever its log and cache are at each round |
| `ReconciliationSuccess.PrefixAgrees` | internal/broker/fetch_manager.go:265-315 | a follower that is a prefix of its leader agrees within two rounds and unchanged iff it has no later epoch than the leader, and fails otherwise |
| `ReconciliationSuccess.ErrorIffSplit` | internal/broker/fetch_manager.go:265-315 | a whole run with answered calls, against a leader that is not behind in epochs, fails iff the last answer ends inside a batch of the follower |
| `ReconciliationSuccess.AlignedNeverFails` | internal/broker/fetch_manager.go:265-315 | no run fails against a leader whose epochs all start between the follower's batches |
| `Divergence.UnknownExitCanDiverge` | internal/broker/fetch_manager.go:309-311 | two replicas with consistent histories for which reconciliation succeeds and leaves them different from offset 0 on |
| `Partitions.ReconcileRound` | internal/broker/fetch_manager.go:280-314 | one answer truncates log and high watermark as the round of the model does |
| `Partitions.ReconcilePartition` | internal/broker/fetch_manager.go:265-315 | the loop on a partition object computes the run of rounds, and touches only log and high watermark |
| `PartitionModel.StampLog` | internal/log/segment.go:544-590 | stamped batches follow one another from the log end on, carry the leader's epoch, and keep their record counts |
| `PartitionModel.AppendStampedCoherent` | internal/log/log_raw.go:8-57 | a successful leader append leaves a coherent log that ends that many records later |
| `PartitionModel.RequiredIsLogEnd` | internal/broker/partition_raw.go:83-101 | the offset a request waits for lies past the old log end, never past the new one, and is the new one iff the request has at most 2^32 records |
| `PartitionModel.AppendReplicaCoherent` | internal/log/log_raw.go:59-147 | a replica append adds exactly the accepted batches, keeps the log gapless, and keeps it coherent iff the first epoch fits |
| `Progress.ProduceOutcome` | internal/broker/partition_raw.go:38-101 | a leader takes batches iff it is open and they are small enough for it and for the offsets; the watermark then is the largest offset the log and all other in-sync replicas reach, or the old one |
| `Progress.FetchOutcome` | internal/broker/partition_raw.go:328-360 | a follower's fetch is recorded for that follower only, iff it is within the log and of the leader's epoch, with the same rule for the watermark |
| `Progress.IsrOutcome` | internal/broker/partition.go:252-275 | an ISR update keeps the recorded ends of those who stay, starts others at 0, with the same rule for the watermark |
| `Progress.AloneCommits` | internal/broker/partition.go:430-467 | a leader alone in its ISR commits what it writes at once |
| `Progress.AllFetchedCommits` | internal/broker/partition.go:418-467 | once every other ISR member has fetched from the log end, in any order, the watermark is there |
| `Progress.ProducedIsWoken` | internal/broker/partition_raw.go:101-115 | so the offset a produce request waits for is reached once they have fetched |
| `Progress.ReplicaOutcome` | internal/log/log_raw.go:59-147 | fetched batches up to the first of a later epoch are appended iff they continue the log in order; otherwise nothing changes |
| `Progress.FirstFaultIs` | internal/log/log_raw.go:88-112 | the error that is reported is that of the first batch out of order |
| `Progress.ReplicateOutcome` | internal/broker/partition_raw.go:176-226 | a follower takes batches of its leader's epoch only, and its watermark follows the leader's as far as its log goes |
| `Progress.CutOutcome` | internal/broker/partition.go:469-501 | a follower is cut at a batch boundary and nowhere else, and its watermark with it |
| `Progress.FollowerCatchesUp` | internal/broker/fetch_manager.go:372-436 | in every safe state, a fetch, the leader's answer and its delivery are all accepted and give a reconciled follower exactly the next batches of its leader |
| `PartitionRuns.HwWithinLogAlways` | internal/broker/partition.go:469-501 | in every run of role changes, appends, fetches and truncations the high watermark stays within the log |
| `PartitionRuns.HwGrows` | internal/broker/partition.go:430-501 | the high watermark never decreases except by truncation of a follower |
| `PartitionRuns.InvStep` | internal/broker/partition.go:163-275 | one operation keeps cache, log, watermark and leadership consistent iff it meets the condition stated for it |
| `PartitionRuns.InvAlways` | internal/broker/partition_raw.go:38-226 | over every run of such operations they stay consistent |
| `ClusterSafety.ActionKeepsSafe` | internal/broker/fetch_manager.go:332-436 | every step of every broker that meets the three conditions keeps the cluster invariant; messages and the answers of earlier leaders may be delayed, repeated or lost |
| `ClusterSafety.SafeAlways` | internal/broker/fetch_manager.go:332-436 | the invariant holds in every state that a run of such steps from empty brokers reaches |
| `ClusterSafety.SafeIffClean` | internal/broker/fetch_manager.go:295-311 | a step from a safe state leads to a safe state iff it meets the three conditions, each on the state before it |
| `ClusterSafety.CutNode` | internal/broker/partition.go:469-501 | whatever offset a follower is cut at, its own invariant stays, its log ends there iff that is a batch boundary, and a request of its current epoch stays within its log iff its offset is not past the cut |
| `ClusterSafety.LogMatching` | internal/broker/partition_raw.go:176-226 | two brokers whose batches agree in offset and epoch have identical logs up to there |
| `ClusterSafety.FetchingIsPrefix` | internal/broker/fetch_manager.go:332-436 | a reconciled follower's log is always a prefix of the log of its epoch's leader |
| `ClusterSafety.RecordedWithinLog` | internal/broker/partition.go:418-428 | in a safe state the end recorded for an ISR member of the leader's epoch is not past that member's real log end |
| `ClusterSafety.AdvanceIsRecorded` | internal/broker/partition.go:430-467 | when the high watermark moves, that is recorded for each member of the ISR it was computed from |
| `ClusterSafety.AckedIsDurable` | internal/broker/partition.go:430-467 | in a safe state everything a high watermark moved over is in the log of each of those members that still is in the epoch |
| `ClusterSafety.PassedIsCounted` | internal/broker/partition.go:430-467 | when a leader's high watermark has got past an offset during a run, one action of the run moved it there, and that advance is recorded for every other member of the leader's ISR right after that action |
| `ClusterSafety.WokenIsDurable` | internal/broker/partition_raw.go:38-174 | once the watermark has reached the offset a produce request waits for, one action of the run moved it there, and every other member of the leader's ISR right after it, while still in the epoch, has all that is stored up to the offset; that is the whole request iff it has at most 2^32 records |
| `Incidents.LateAnswerCutsAcked` | internal/broker/fetch_manager.go:294-307 | a run from empty brokers after which the late answer of an earlier leader empties the log of a follower that was counted on for an acknowledged batch |
| `Incidents.WideRequestIsWokenEarly` | internal/log/log_raw.go:56-56 | a run from empty brokers in which a request of three valid batches reaches the offset it waits for while the only follower has the first batch |
| `Incidents.UnknownEpochDiverges` | internal/broker/fetch_manager.go:309-311 | a run from empty brokers in which reconciliation succeeds on an unknown epoch and leaves a batch the leader does not have |
| `Incidents.SplitBatchBlocks` | internal/broker/fetch_manager.go:303-307 | a run from empty brokers after which a follower asks, is answered inside a batch, fails, and asks again in the same state |
| `Incidents.UnusedEpochCutsHistory` | internal/log/epoch_cache.go:51-59 | a run from empty brokers in which a delivered batch of an earlier epoch makes the follower forget where that epoch started |
| `Purgatory.RootIsLeast` | internal/broker/partition.go:99-121 | in a heap no waiter needs less than the first |
| `Purgatory.UpStep` | internal/broker/partition.go:99-113 | a swap with the parent moves the only violation of heap order up |
| `Purgatory.DownStep` | internal/broker/partition.go:99-121 | a swap with the smallest child moves the only violation down |
| `Purgatory.WaiterQueue.Push` | internal/broker/partition.go:109-113 | adds an open waiter; order and stored positions hold again, and nobody else is woken |
| `Purgatory.WaiterQueue.Remove` | internal/broker/partition.go:114-121 | takes out the waiter at a position, keeps all others, heap order and positions |
| `Purgatory.WaiterQueue.Drain` | internal/broker/partition.go:504-516 | afterwards the closed waiters are those closed before and those that need at most the watermark, with no error set |
| `Purgatory.WaiterQueue.FailAll` | internal/broker/partition.go:518-527 | every open waiter is closed with the error, closed ones keep theirs |
| `Purgatory.WaiterQueue.Expire` | internal/broker/partition_raw.go:138-165 | a timed-out waiter is closed with a timeout unless it already was closed; nobody else is touched |
| `Purgatory.Waiter.Close` | internal/broker/partition.go:504-527 | a waiter's channel is closed only while open, so never twice |
| `Partitions.SmallestLeo` | internal/broker/partition.go:430-450 | the loop finds the smallest end of leader and in-sync followers |
| `Partitions.SetLeo` | internal/broker/partition.go:418-428 | the loop records a follower's end at its first ISR entry only |
| `Partitions.CarryLeos` | internal/broker/partition.go:252-275 | a new ISR keeps the recorded ends of the members that stay |
| `Partitions.Partition.MaybeAdvanceHw` | internal/broker/partition.go:430-467 | raises the watermark to what all in-sync replicas have, and wakes exactly the waiters that need no more |
| `Partitions.Partition.MakeLeader` | internal/broker/partition.go:163-217 | the role change of the model; waiters fail only when the epoch is invalid |
| `Partitions.Partition.MakeFollower` | internal/broker/partition.go:219-234 | the role change of the model; every waiting request fails |
| `Partitions.Partition.MakeUnassigned` | internal/broker/partition.go:237-250 | the role change of the model; every waiting request fails |
| `Partitions.Partition.Close` | internal/broker/partition.go:529-545 | closes the partition and fails every waiting request |
| `Partitions.Partition.UpdateLeaderIsr` | internal/broker/partition.go:252-275 | replaces the ISR of the same leadership only, then advances the watermark and wakes whoever it satisfies |
| `Partitions.Partition.UpdateFollowerLeo` | internal/broker/partition.go:418-428 | records the end, advances the watermark and wakes exactly whoever it satisfies |
| `Partitions.Partition.AppendRaw` | internal/broker/partition_raw.go:38-174 | appends as leader and gives the first offset; with acks=all the request waits for the offset reported in 32 bits, which is the log end iff it has at most 2^32 records, and is already woken iff the watermark is there |
| `Partitions.Partition.AppendFromLeader` | internal/broker/partition_raw.go:176-226 | appends only from the leader and epoch the follower follows, and moves the watermark within the log |
| `Partitions.Partition.TruncateTo` | internal/broker/partition.go:469-501 | truncates a follower, and lowers its watermark to the new end |
| `Partitions.CapToHw` | internal/broker/partition_raw.go:422-462 | of the read batches, exactly the longest prefix that ends at or below the watermark |
| `Partitions.FetchRanges` | internal/broker/partition_raw.go:328-420 | whole consecutive batches from the one that holds the offset on, nothing past the watermark for consumers, within the byte limit or one batch, and a stated reason why the next batch is missing |
| `Partitions.DeliveredBelow` | internal/broker/partition_raw.go:328-420 | the first delivered batch holds the offset, each next one continues it, and all end at or below the reported position |
| `Segments.PrepareRun` | internal/log/segment.go:552-580 | the stamping loop gives consecutive offsets, and fails iff an offset would overflow |
| `Segments.RunAppended` | internal/log/segment.go:544-590 | appending a run keeps a segment gapless, with the end offset and size counted by the segment |
| `Segments.Segment.ReadBatchMetaAt` | internal/log/segment.go:608-618 | reads offset, last offset delta and size of the batch at a file position, iff one starts there |
| `Segments.Segment.AppendBatches` | internal/log/segment.go:544-590 | appends stamped or replica batches, or fails without effect when the segment is full or an offset overflows |
| `Segments.Segment.FindTruncationPosition` | internal/log/truncate.go:122-172 | finds the file position of a boundary, or the batch the offset is inside of |
| `Segments.Segment.Scan` | internal/log/log_raw.go:199-219 | scanning from a batch at or below the offset finds the batch that holds it |
| `Segments.Segment.ReadRangeAt` | internal/log/segment.go:709-759 | at least one batch, and as many as fit in the byte limit |
| `Segments.Segment.TruncateAt` | internal/log/segment.go:761-786 | keeps exactly the batches before the position |
| `Segments.BisectEnds` | internal/log/index.go:117-150 | the bisection ends at a slot at or below the target whose successor is above, on slots of any order |
| `Segments.Index.Write` | internal/log/index.go:99-111 | appends a slot with the 32-bit relative offset, iff there is room |
| `Segments.Index.Lookup` | internal/log/index.go:117-150 | gives the position of the slot the bisection ends at |
| `SegmentPairs.LookupIffNear` | internal/log/index.go:99-150 | lookups start at or below every offset of a segment iff its last indexed batch starts less than 2^32 offsets into it |
| `SegmentPairs.HitBelow` | internal/log/index.go:113-150 | in a segment of at most 2^32 offsets the slot found is the last one at or below the offset |
| `SegmentPairs.WideSegmentMisses` | internal/log/index.go:99-150 | a segment of batches that validation accepts, with the index a rebuild gives it, in which a lookup starts past the offset |
| `SegmentPairs.RebuiltBound` | internal/log/log.go:315-346 | how many slots a rebuild can need for a segment of a given size |
| `SegmentPairs.RebuiltFits` | internal/log/log.go:315-346 | an index with one slot per interval of bytes and one more never is too small for a rebuild |
| `SegmentPairs.RebuiltAscends` | internal/log/log.go:315-346 | a rebuild writes slots in the order of their batches |
| `SegmentPairs.RebuiltGrows` | internal/log/log.go:315-346 | a rebuild of fewer batches needs no more slots |
| `SegmentPairs.ScanIsShort` | internal/log/log.go:315-346 | every batch has a slot before it with less than an interval of bytes to scan behind the batch of that slot |
| `SegmentPairs.SegmentPair.Append` | internal/log/log_raw.go:30-57 | a segment and its index grow together: index slots still point at the starts of stored batches, and the run gets one iff it is the first or an interval is filled |
| `SegmentPairs.SegmentPair.RebuildIndex` | internal/log/log.go:315-346 | rebuilds slots that point at stored batches, and fails iff they do not fit |
| `SegmentPairs.SegmentPair.Locate` | internal/log/log_raw.go:196-219 | index lookup and scan find the batch that holds an offset whenever the lookup starts at or below it |
| `SegmentPairs.SegmentPair.ReadFrom` | internal/log/log_raw.go:186-221 | reads from that batch on; it cannot miss in a segment of at most 2^32 offsets |
| `SegmentPairs.SegmentPair.Truncate` | internal/log/truncate.go:100-120 | keeps exactly the batches before the cut and rebuilds the index, iff it fits |
| `SegmentLayout.FlattenLog` | internal/log/log.go:259-292 | segments laid out one after another are one gapless log that ends where the last one does |
| `SegmentLayout.BasesIncrease` | internal/log/log.go:275-292 | segment bases strictly increase |
| `SegmentLayout.LaidRoll` | internal/log/log.go:275-292 | rolling keeps the layout and the log |
| `SegmentLayout.LaidCut` | internal/log/truncate.go:10-98 | cutting in a segment and dropping the later ones gives exactly the batches up to the cut |
| `SegmentLayout.InsideLaid` | internal/log/truncate.go:122-172 | an offset inside a batch of some segment is no boundary of the log |
| `SegmentLayout.RangeLaid` | internal/log/log_raw.go:186-221 | batches read from one segment are the batches of the flat log from the one that holds the offset on |
| `SegmentLayout.TakenIsFull` | internal/log/segment.go:709-759 | what was read stops only where the next batch does not fit or starts another segment |
| `SegmentedLog.CheckRun` | internal/log/log_raw.go:88-112 | accepts iff offsets follow the log end and epochs never decrease, reports the first fault otherwise, and gives the epoch transitions |
| `SegmentedLog.AcceptedBatches` | internal/log/log_raw.go:68-79 | keeps the batches before the first one of a later epoch than the fetch was for |
| `SegmentedLog.CheckedFits` | internal/log/log_raw.go:88-143 | checked batches continue the log and their offsets cannot overflow |
| `SegmentedLog.Log.Roll` | internal/log/log.go:275-292 | sealing the active segment leaves the log as it is |
| `SegmentedLog.Log.AppendRaw` | internal/log/log_raw.go:8-57 | on segments and index, a leader append is the append to the flat log, with the same errors; it reports the old log end and the 32-bit last offset, which is that of the new log end iff there are at most 2^32 records |
| `SegmentedLog.Log.AppendReplicaRaw` | internal/log/log_raw.go:59-147 | on segments, index and epoch cache, a replica append is the append to the flat replica log, with the same errors, and counts the records it accepted |
| `SegmentedLog.Log.FindSegment` | internal/log/log.go:352-366 | finds the one segment that starts at or below an offset and whose successor starts above |
| `SegmentedLog.Log.TruncateTo` | internal/log/truncate.go:10-98 | truncation across segments is truncation of the flat replica log; it fails without effect past the end or inside a batch, and otherwise only if the kept part's index does not fit, which one slot per interval of bytes and one more rule out |
| `SegmentedLog.Log.ReadRawRanges` | internal/log/log_raw.go:186-221 | segment search, index search and scan give the batches a scan of the whole log gives, as many as fit within the segment |
| `SegmentedLog.Log.AssignLeaderEpoch` | internal/log/epoch_lifecycle.go:16-33 | assigns in the cache, rejects negative epochs, leaves the batches alone |
| `SegmentedLog.Log.EndOffsetForLeaderEpoch` | internal/log/epoch_lifecycle.go:56-58 | the cache's answer with the log end as its limit |
| `SegmentedLog.Log.NextOffset` | internal/log/log.go:267-269 | the active segment's next offset is the end of the flat log |
| `Controller.NormalizedIsNormal` | internal/controller/fsm.go:242-272 | accepted endpoints come out as a permutation of the cleaned ones: complete, and strictly ordered by name |
| `Controller.NormalIsFixed` | internal/controller/fsm.go:242-272 | endpoints already in that form are accepted unchanged |
| `ControllerEffects.NormalizedIff` | internal/controller/fsm.go:242-272 | endpoints are accepted iff each is complete once cleaned and no two have the same name |
| `ControllerEffects.ValidIffAssignable` | internal/controller/fsm.go:416-458 | an assignment is valid iff replicas and ISR are sets of that size, the leader is in the ISR, the ISR within the replicas, all registered and no ISR member fenced |
| `ControllerEffects.UpdateOutcome` | internal/controller/fsm.go:367-404 | an update is accepted iff it expects the current epoch, is assignable, and keeps the leader, elects from the ISR or may be unclean; the partition then is as asked, the leader epoch moves iff the leader does, all else stays |
| `ControllerEffects.CreateOutcome` | internal/controller/fsm.go:318-362 | a topic is created iff its name is new and its partitions are numbered from 0 with valid assignments; they then are as asked at epoch 0, all else stays |
| `ControllerEffects.RegisterOutcome` | internal/controller/fsm.go:201-240 | when a broker is registered; it then is fenced, with the log position as its epoch and its cleaned endpoints; the same incarnation again changes nothing |
| `ControllerEffects.UnfenceOutcome` | internal/controller/fsm.go:290-307 | a broker is unfenced iff its current epoch is named, and nothing else changes |
| `ControllerEffects.AlwaysAssigned` | internal/controller/fsm.go:171-404 | after every command log every partition has such an assignment |
| `ControllerEffects.OneIncarnationPerEpoch` | internal/controller/fsm.go:201-240 | over every command log brokers never disappear, and a broker epoch belongs to one incarnation, which once unfenced stays so |
| `ControllerEffects.LateUnfenceIsRefused` | internal/controller/fsm.go:290-307 | an unfencing meant for an earlier incarnation of a broker is refused |
| `ControllerSafety.ApplyKeeps` | internal/controller/fsm.go:171-404 | each command keeps the controller invariant: leaders in duplicate-free, unfenced ISRs within registered replicas, partitions numbered from 0 |
| `ControllerSafety.InvAlways` | internal/controller/fsm.go:171-404 | it holds after every command log |
| `ControllerSafety.OneLeaderPerEpoch` | internal/controller/fsm.go:385-402 | over every command log of fewer than 2^31 commands, equal leader epochs of a partition mean the same leader and equal partition epochs the same assignment, and partitions never disappear |
| `ControllerSafety.UpdateIsLater` | internal/controller/fsm.go:391-402 | an accepted update moves its epochs on iff neither is at the 32-bit limit |
| `ControllerSafety.OneUpdatePerEpoch` | internal/controller/fsm.go:378-402 | of all updates in a command log that expect the same epoch of a partition, at most one is accepted |
| `ControllerSafety.ElectsFromIsr` | internal/controller/fsm.go:385-389 | unless an unclean election was asked for, a new leader comes from the previous ISR |
| `Snapshots.LoadsPartitions` | internal/controller/fsm.go:756-780 | loading succeeds iff rows are distinct and valid, and then gives exactly the rows |
| `Snapshots.ContiguousIsNumbered` | internal/controller/fsm.go:782-796 | counting the partitions of a topic and looking up each number below the count succeeds iff they are numbered from 0 without gaps |
| `Snapshots.SnapshotRoundTrip` | internal/controller/fsm.go:682-799 | loading a snapshot of a consistent state gives the state back, and fails iff an epoch has overflowed below zero |
| `Snapshots.SnapshotIsUnique` | internal/controller/fsm.go:682-714 | two snapshots of the same state in that order are equal, however the maps were walked |
| `Snapshots.RestoresIff` | internal/controller/fsm.go:716-799 | a snapshot loads iff its version is right, brokers are acceptable with distinct ids, topics distinct and named, rows distinct and valid, and partitions numbered from 0; the state then is what it lists |
| `Snapshots.LoadedAs` | internal/controller/fsm.go:720-744 | a loaded broker is stored under its id, unchanged but for its endpoints, which are a permutation of the cleaned ones |
| `Snapshots.RestoredIsSound` | internal/controller/fsm.go:716-799 | whatever snapshot loads, the controller invariant holds of the result |
| `Snapshots.RestoreAndReplay` | internal/controller/fsm.go:649-673 | restoring a snapshot and applying the rest of the command log equals applying all of it |
| `ControllerFsm.ValidateSpec` | internal/controller/fsm.go:416-458 | the loops accept exactly the valid assignments |
| `ControllerFsm.InActivePartition` | internal/controller/fsm.go:309-316 | finds out whether a broker leads or is in sync for any partition |
| `ControllerFsm.NormalizeEndpoints` | internal/controller/fsm.go:242-272 | the loop normalises or rejects as the function of the model does |
| `ControllerFsm.CheckSpecs` | internal/controller/fsm.go:333-351 | accepts exactly distinct partitions numbered from 0, each with a valid assignment |
| `ControllerFsm.Fsm.Apply` | internal/controller/fsm.go:171-199 | each command changes the state as the model says, and a rejected one changes nothing |
| `ControllerFsm.Fsm.Restore` | internal/controller/fsm.go:649-673 | replaces the state by a valid snapshot, and leaves it alone otherwise |
| `ControllerFsm.ToSnapshot` | internal/controller/fsm.go:682-714 | lists every broker, topic and partition exactly once, brokers by id, topics by name, partitions by topic and number |
| `RawBatches.ScanRawBatches` | internal/log/segment.go:475-500 | splits the input iff it is a sequence of valid batches, and the bounds then tile it |
| `RawBatches.BoundsAgree` | internal/log/segment.go:467-500 | the bounds of a split give offset, size, epoch and record count of each batch as the log sees them |
| `RawBatches.TilingUnique` | internal/log/segment.go:475-500 | a byte string can be split into valid batches in one way only |
| `RawBatches.BatchIs` | internal/log/segment.go:423-465 | a batch is valid iff its length, format, checksum, counts and offset are right |
| `RawBatches.HeadIsPrefix` | internal/log/segment.go:423-465 | whether a batch is valid depends on its own bytes only |
| `RawBatches.TilesAreScanned` | internal/log/segment.go:423-500 | what the scan lets through meets what the log operations ask for |
| `RawBatches.StampedFields` | internal/log/segment.go:568-572 | stamping changes base offset and epoch and nothing else |
| `RawBatches.StampedValid` | internal/log/segment.go:568-572 | a stamped batch keeps a valid checksum, and stays valid iff its offset has 63 bits |
| `RawBatches.StampAllIs` | internal/log/segment.go:544-590 | stamping bytes is stamping batches in the log model |
| `RawBatches.StampAllValid` | internal/log/segment.go:544-590 | every batch of a stamped run is valid |
| `RawBatches.StampRaw` | internal/log/segment.go:544-590 | the in-place loop on a copied buffer gives consecutive offsets from the log end on, and fails iff one would overflow |
| `RawBatches.Recover` | internal/log/segment.go:86-159 | the loop computes the extent that `RecoveredIs` is about |
| `RawBatches.RecoveredIs` | internal/log/segment.go:86-159 | on any file, what is kept is a run of batches with right length, format and checksum, no such batch starts where it ends, and the next offset counts their records |
| `RawBatches.StopsAtDamage` | internal/log/segment.go:117-149 | valid batches in front of damaged bytes are kept, and nothing else |
| `RawBatches.RecoversWhole` | internal/log/segment.go:86-159 | from any byte prefix of a well-formed file exactly the whole batches are kept, with the next offset that follows them |
| `Varints.VarintRoundTrip` | internal/log/segment.go:162-170 | every 64-bit integer is read back from its zigzag varint, whatever follows it |
| `Varints.GroupsAre` | internal/log/segment.go:162-170 | the written groups of seven bits stand for the number, with the high bit on all but the last, and none too many |
| `Varints.ReadsIff` | internal/log/segment.go:312-316 | groups are read iff they end within ten bytes and their number fits in 64 bits, and as that number |
| `Varints.VarintSize` | internal/log/segment.go:162-170 | the loop counts the bytes of the varint |
| `Codec.NullableRoundTrip` | internal/log/segment.go:235-262 | null, empty and other keys and values are read back as what they were |
| `Codec.RecordRoundTrip` | internal/log/segment.go:235-395 | a record is read back from its bytes, whatever follows it |
| `Codec.RecordLayout` | internal/log/segment.go:235-262 | a written record has its true length, no attributes, its timestamp difference, its number, key, value and no headers, each in its place |
| `Codec.PayloadWithHeaders` | internal/log/segment.go:340-384 | key and value are read, and the next record found, whatever headers a record has |
| `Codec.DecodeOfEncode` | internal/log/segment.go:199-395 | every batch whose length fits the header is read back from its bytes unchanged |
| `Codec.DecodedFields` | internal/log/segment.go:264-395 | whatever bytes are read as a batch have the right length, format and checksum, and the fields of the result are theirs |
| `Codec.EncodedFields` | internal/log/segment.go:199-233 | every header field of a written batch is found at its place with its value, the producer fields with -1 |
| `Codec.EncodedIsBatch` | internal/log/segment.go:423-465 | a written batch passes validation iff its counts, offset and length are in the range validation allows |
| `Encoders.EncodedBatchSize` | internal/log/segment.go:172-197 | the size computed in advance is the size written |
| `Encoders.EncodeBatch` | internal/log/segment.go:199-233 | the log's writer gives exactly the bytes that `DecodeOfEncode` is about |
| `Encoders.AppendRecord` | internal/log/segment.go:235-262 | appends one record to what was written before |
| `Encoders.EncodeRecordBatch` | internal/protocol/record_batch.go:167-200 | the wire writer gives the same bytes as the log's writer |
| `Encoders.EncodeRecord` | internal/protocol/record_batch.go:203-231 | a record from the wire writer is the record the log writes |
| `Encoders.ReadRecords` | internal/log/segment.go:296-395 | the reading loop gives all records or none |

## Left out

- Append, Fetch, Read and ReadRaw of whole decoded batches: a second path beside the raw one, which stamps epoch 0 and credits followers early, so it does not share the guarantees.
- Committed records across elections: the controller does not check that a member added to the ISR has caught up, so durability is stated within one leader epoch.
- Crashes and I/O errors in the middle of an operation, fsync, memory mapping, file names and the checkpoint's dirty flag.
- The text format of the epoch checkpoint file.
- The low end of a log: there is no retention, so every log starts at offset 0, and the check against the oldest offset never fails.
- Sockets, request framing, raft, JSON, process start-up, metadata and offset handlers: they move fields and bytes.
- Goroutines and the notification channels for fetches; each mutex-protected method is one atomic step, and the watermark advance is one step with its caller.
- Fetch-worker maps and reassignment of partitions between workers: the cluster model lets a broker restart reconciliation at any time, and lets the answers of earlier leaders' workers cut its log at any time, instead.
- Reassignment in several steps: a broker's role change and the change of its fetch workers are one atomic step, while the code reads the controller twice and updates workers one by one, so that an old worker may still append in the old epoch after a new one has reconciled.
- decodeOneRecordBatch of the wire protocol, the other decoder of the same bytes.
- Partitions.Partition: holds its log as a value, the view of a `SegmentedLog.Log`, because the methods of that class are proved equal to the functions used here.
- Partitions.FetchRanges: starts after the role checks and the follower bookkeeping, which `PartitionModel.FollowerFetch` and `Partition.UpdateFollowerLeo` model.
- Purgatory.WaiterQueue.Remove: also stands for taking the first waiter, which the library does with the same swap and sift.
- SegmentedLog.Log.TruncateTo: says nothing about the log after a truncation whose rebuilt index does not fit.
- Segments.Segment.ReadBatchMetaAt: answers nothing where no batch starts, while the code takes any 27 bytes for a header; the log only reads where one starts.
- Segments.Segment.ReadRangeAt: covers positions at which a batch starts, the only ones the log reads from.
- Segments.Segment.TruncateAt: covers positions at which a batch starts or the file ends, the only ones the log cuts at.
- RawBatches.Recover: ends at a header whose total size is below 21 bytes, where the code asks for a negative buffer size.
- RawBatches.StampRaw: the checksum is a function of the bytes and is not computed.
- Codec.DecodeOfEncode: is about written batches; for other bytes the reader of the model stops at the end of the batch where the code may look at bytes behind it.
- Controller.NormalizedIsNormal: takes trimming and upper-casing of endpoint fields as any idempotent function.
- ControllerFsm.ToSnapshot: sorts the keys and then lists them, where the code lists in the order of the map and then sorts with the library.
