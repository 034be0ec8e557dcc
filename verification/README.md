# A model of the flood early-warning system

The system has three tiers. Edge nodes measure a water level with an ultrasonic sensor. Fog nodes
filter the readings by vote, agree on them with Raft and send them over LoRaWAN. A gateway decodes
the uplinks, removes duplicates, drives actuators by rules and buffers events for the cloud.

Each component is modelled twice where the code changes state. A module on values says what the
component does and carries the theorems; a class beside it has the code's own fields, arrays and
loops, and each method is proved to move the value model by the corresponding function. The echo
driver and its cycle are the exception: they are interleaved atomic steps on values.

| modules | component |
|---|---|
| `Medians`, `Voting`, `Tolerance`, `VoteRuns`, `VoteEngine` | outlier vote, reputation, alert |
| `Seqlock`, `EchoCycle` | echo driver, its interrupt, the measurement cycle |
| `Raft`, `RaftElection`, `RaftMatching`, `RaftStanding`, `RaftCompleteness`, `RaftSafety`, `RaftNextIndex`, `RaftGuarded`, `RaftReplies`, `RaftLimits`, `RaftOverstated`, `RaftServer` | Raft over a network that loses, repeats and reorders |
| `RaftLog`, `LogRing` | the replicated log as a compacting ring |
| `Egress`, `EgressCluster`, `EgressCoordinator` | uplinks that survive a change of leader |
| `Policy`, `PolicyEngine`, `Actuation`, `ActuatorDaemon` | rules, operator queue, actuators |
| `EdgeSequence`, `Replay`, `Gateway` | sequence numbers end to end, duplicate filter, event buffer |
| `UplinkPath` | the way of an uplink from the coordinators to the duplicate filter |
| `Wire`, `Uplink` | payload layout, hex, AT command, decoder |

## Main results

- **Vote.** With an honest majority that agrees within the tolerance, no honest sensor is ever marked,
  punished or excluded over any run (`HonestNeverPunished`, `HonestNeverMarked`); a trigger needs an
  honest level of at least 1300 mm, and high water raises the alert in that window. Half of the
  reporters being faulty is already too much (`MajorityIsNecessary`).
- **Measurement cycle.** For every interleaving one trigger gives one completion and one reading, the
  winner's (`OneReadingPerTrigger`), within 27 steps that are no edges (`ReadingWithinRank`), provided no echo
  ends before the timeout is armed. That condition is exact: from any state a step is harmless if and
  only if it keeps it (`TimelyIsExact`).
- **Raft.** Log Matching and Election Safety, the latter across time, hold over every run, restarts
  included. State Machine Safety, across time as well as across servers, holds over every run without
  restarts, in which followers have room for what they commit, leaders submit only after their own no-op,
  and no leader with its no-op hears a refusal without a hint from a server of its term (`GuardedSafety`).
  Entries that are not committed may find no room and be dropped. The next indices and hints of the code then make
  every reply right (`RepliesAreShared`), so leaders count right (`LeadersCountRight`), which is all that
  safety needs besides room and no restarts (`StateMachineSafety`). Room and right counts are exact: an event
  keeps the invariant if and only if it takes both kinds of care (`CareIsExact`), and over whole runs no
  server commits what it does not hold if and only if there was room for what was committed
  (`FitsIsExactOverRuns`).
  `RestartsForget`, `FullFollowerSkips`, `NoopRefused` and `HintlessRefusals` are runs, for a whole range of
  log capacities and message sizes, that take all care but one and break the property. `NoopRefused` needs
  a leader that is elected with a full log and has room again in that term: a snapshot that could not be saved
  before, as `firmware/fog/src/raft/callback.hpp:84-88` allows, or one asked for from outside
  (`firmware/fog/src/raft/server/server.hpp:100`). The service saves snapshots that never fail
  (`firmware/fog/src/raft/engine.hpp:133-134`), so left to itself its leaders meet that condition.
- **Egress.** The ring stays the recent part of the unbounded history if and only if no evicted sequence
  comes back (`RingIsRecentHistory`). Orderly runs hand out rising sequences and re-drive under the
  original ones (`SequencesRise`, `RedriveIsOriginal`); both conditions of order are exact for what they
  protect (`OrderlyBeginIsExact`, `OrderlyElectionIsExact`), and without either a run uses a sequence twice.
- **The whole way of an uplink.** What the gateway drops it has recorded among its last uplinks, but for
  sequence 0 at the start (`DroppedIsKnown`); whatever arrives, however often and in whatever order, every
  sequence is recorded at most once if and only if copies arrive promptly (`RecordedOnceIffPrompt`), so an
  uplink that leaders re-drive is recorded at most once (`ResentIsRecordedOnce`).
- **Log ring.** No legal run can tell the compacting ring from a log that is never compacted
  (`CompactionInvisible`).
- **Policy.** An evaluation does to each actuator what the first effective rule for it says and nothing
  else (`EvaluateIsFirstEffective`, `EvaluateIsLocal`).
- **Sequence numbers.** Sequences never repeat if and only if no boot that overran is followed by one
  that sends (`NoRepeatsIffRested`).
- **Wire.** The decoder restores every field of every payload sent.

## Where the code and its words differ

- `firmware/edge/src/sensor/sensor_coap.hpp:24-31` says the flash value is always one step ahead; line
  117 saves the counter itself, so after more than one step per boot flash trails the counter.
  `NoRepeatsIffRested` and `RebootCostsLessThanAStep` give the exact consequences.
- `firmware/fog/src/raft/server/server_replication_impl.inl:184` reports the end of the follower's log,
  not the last entry it shares with the leader, and line 243 counts it as replicated. That is right as
  long as next indices never lie before the first difference.
- `firmware/fog/src/raft/server/server_replication_impl.inl:79-87` refuses a message of an older term with the
  receiver's present term and no hint; if the sender leads that term, lines 263-267 send it back one entry each
  time it hears that refusal (`HintlessRefusals`).
- `firmware/fog/src/raft/server/server_replication_impl.inl:169-180` advances the commit index although
  a push may have been refused by a full log.
- `firmware/fog/src/raft/engine.hpp:67-68` restores the term and the vote only, so the log and the commit
  index start empty after a restart.
- `gateway/server/policy/policy.go:158-161` speaks of a disposition from the source; only the rule's own
  disposition is looked at.
- `gateway/server/telemetry/hub.go:50-54` scans untouched slots too, so sequence 0, the first one the fog
  tier uses, is dropped until the ring is full (`SequenceZeroWaits`).

## Model

| member | source | states |
|---|---|---|
| `Medians.MajorityBoundsMedian` | firmware/fog/src/outlier_vote/engine.hpp:238-266 | The median lies in every range that holds a strict majority of the readings |
| `Medians.SortedUnique` | firmware/fog/src/outlier_vote/engine.hpp:252-255 | A multiset of readings has one sorted arrangement, so "as if sorted" is well defined |
| `Medians.PartitionedIsSorted` | firmware/fog/src/outlier_vote/engine.hpp:252-262 | A partitioned buffer sorts to its two sorted sides around the pivot |
| `Medians.NthElement` | firmware/fog/src/outlier_vote/engine.hpp:254-255 | In place: a permutation with everything before position mid below it and everything after above |
| `Medians.MaxElement` | firmware/fog/src/outlier_vote/engine.hpp:260 | A largest of the first n elements |
| `Medians.MedianN` | firmware/fog/src/outlier_vote/engine.hpp:238-266 | Partial selection on a copy yields the median defined by full sorting, for odd, even and empty input |
| `Tolerance.MedianAmongHonest` | firmware/fog/src/outlier_vote/engine.hpp:73-76 | With an honest majority the median lies in any range holding all honest levels |
| `Tolerance.HonestIsNoOutlier` | firmware/fog/src/outlier_vote/engine.hpp:324-333 | No choice of the minority's readings makes an honest reading an outlier |
| `Tolerance.HonestNeverPunished` | firmware/fog/src/outlier_vote/engine.hpp:136-173 | Over every fair run of any length honest sensors keep full reputation and are never excluded |
| `Tolerance.HonestNeverMarked` | firmware/fog/src/outlier_vote/engine.hpp:361-377 | Over every fair run each batch carries honest readings with their own level, time and quality flags |
| `Tolerance.AlertNeedsHonestWater` | firmware/fog/src/outlier_vote/engine.hpp:182-202 | A batch triggers only if some honest reporter read at least threshold minus tolerance |
| `Tolerance.HighWaterRaisesAlert` | firmware/fog/src/outlier_vote/engine.hpp:182-202 | If all honest reporters of a fair run are good and at the threshold, the alert is active after that window |
| `Tolerance.MajorityIsNecessary` | firmware/fog/src/outlier_vote/engine.hpp:73-76 | Once half of the reporters are faulty, for every honest reading some lie flags it as an outlier |
| `Voting.VotePointwise` | firmware/fog/src/outlier_vote/engine.hpp:161-166 | A vote judges each reporter once from its own standing and touches nobody else |
| `Voting.BatchPointwise` | firmware/fog/src/outlier_vote/engine.hpp:324-378 | Entry i of a batch is reporter i's reading flagged by that sensor's own verdict and exclusion |
| `Voting.ReportingDistinct` | firmware/fog/src/outlier_vote/engine.hpp:138-147 | Reporters have distinct EUIs and are no more than the slots |
| `Voting.StepAligned` | firmware/fog/src/outlier_vote/engine.hpp:273-315 | Every event keeps slots injective, within capacity and in place, and standings only for sensors with a slot |
| `Voting.RunAligned` | firmware/fog/src/outlier_vote/engine.hpp:273-315 | The same over every run from the start |
| `VoteRuns.StandingBounds` | firmware/fog/src/outlier_vote/engine.hpp:226-231 | Over any verdicts the score stays in 10..100, below 20 means excluded, excluded means below 40, and it is bounded by the trailing run of equal verdicts |
| `VoteRuns.FiveOutliersExclude` | firmware/fog/src/outlier_vote/engine.hpp:342-347 | Five outlier windows in a row exclude whatever came before |
| `VoteRuns.SixCleanAdmit` | firmware/fog/src/outlier_vote/engine.hpp:348-358 | Six clean windows in a row admit whatever came before |
| `VoteRuns.ReadmissionNeedsFiveClean` | firmware/fog/src/outlier_vote/engine.hpp:348-358 | Readmission happens only at the end of at least five clean windows in a row |
| `VoteRuns.StandingFollowsVerdicts` | firmware/fog/src/outlier_vote/engine.hpp:298-315 | In every run of the engine a sensor's standing is the fold of the verdicts on that sensor alone |
| `VoteRuns.AlertIsRecentTrigger` | firmware/fog/src/outlier_vote/engine.hpp:182-202 | After any run the alert is active exactly when one of the last three emitted batches triggered |
| `VoteRuns.SlotsCarryLatest` | firmware/fog/src/outlier_vote/engine.hpp:110-129 | In every run a slot reports exactly if its sensor reported since the window opened, and holds its last reading |
| `VoteRuns.BatchCarriesLatest` | firmware/fog/src/outlier_vote/engine.hpp:136-173 | A batch has one entry per reporting slot, no sensor twice, each with its sensor's last reading of the window |
| `VoteEngine.RoomForSlot` | firmware/fog/src/outlier_vote/engine.hpp:306-314 | A sensor with a slot always finds room in the reputation table, so the lookup never fails during a vote |
| `VoteEngine.VoteEngine.constructor` | firmware/fog/src/outlier_vote/engine.hpp:384-400 | The arrays start as the initial state of the value model |
| `VoteEngine.VoteEngine.SlotFor` | firmware/fog/src/outlier_vote/engine.hpp:273-291 | The sensor's slot, the next free one, or -1 exactly when it has none and all are taken; other slots untouched |
| `VoteEngine.VoteEngine.Accumulate` | firmware/fog/src/outlier_vote/engine.hpp:110-123 | Moves the state by a report; refused exactly for a new sensor with every slot taken |
| `VoteEngine.VoteEngine.WriteSlot` | firmware/fog/src/outlier_vote/engine.hpp:117-121 | The five cells of one slot hold the reading, every other slot is as it was |
| `VoteEngine.VoteEngine.OpenWindow` | firmware/fog/src/outlier_vote/engine.hpp:129 | Clears every reported flag and nothing else |
| `VoteEngine.VoteEngine.RepFor` | firmware/fog/src/outlier_vote/engine.hpp:298-315 | The known entry or a fresh one at the initial reputation; always found when the sensor has a slot |
| `VoteEngine.VoteEngine.JudgeEntry` | firmware/fog/src/outlier_vote/engine.hpp:338-359 | Changes one reputation by one verdict |
| `VoteEngine.VoteEngine.JudgeSensor` | firmware/fog/src/outlier_vote/engine.hpp:335-367 | Looking up and judging changes that sensor's standing only, from the newcomer's if it had none |
| `VoteEngine.VoteEngine.BuildEntry` | firmware/fog/src/outlier_vote/engine.hpp:324-378 | One verdict, applied to the reputation and to the emitted flags |
| `VoteEngine.VoteEngine.Collect` | firmware/fog/src/outlier_vote/engine.hpp:138-147 | The reporting slots and their levels in slot order |
| `VoteEngine.VoteEngine.VoteOn` | firmware/fog/src/outlier_vote/engine.hpp:159-166 | Voting slot by slot gives the vote and the batch of the value model |
| `VoteEngine.VoteEngine.CloseWindow` | firmware/fog/src/outlier_vote/engine.hpp:136-173 | The new state and the batch, or none under three reporters, as the value model says |
| `VoteEngine.VoteEngine.CheckAlert` | firmware/fog/src/outlier_vote/engine.hpp:182-202 | The hysteresis of the value model, from a scan of the batch |
| `VoteEngine.VoteEngine.OnWindowClose` | firmware/fog/src/outlier_vote/service.hpp:129-136 | Closing and re-evaluating the alert is one closing event of the value model |
| `Seqlock.NoTornRead` | firmware/edge/src/jsn/driver.hpp:228-255 | At every interleaving of one publisher and a reader a load returns the pair that was the latest published when it returned |
| `EchoCycle.ThreadKeepsInv` | firmware/edge/src/jsn/driver.hpp:94-126 | Every step of the work queue keeps the cycle's invariant |
| `EchoCycle.IsrKeepsInv` | firmware/edge/src/jsn/driver.hpp:188-219 | Every step of the echo interrupt, at any point of the thread, keeps it |
| `EchoCycle.OthersKeepInv` | firmware/edge/src/sensor/sensor_cycle.hpp:103-122 | Every timer and every edge keeps it, but for the end of an echo before the timeout is armed |
| `EchoCycle.InvHolds` | firmware/edge/src/sensor/sensor_cycle.hpp:113-137 | The invariant over every timely interleaving |
| `EchoCycle.OneReadingPerTrigger` | firmware/edge/src/sensor/sensor_cycle.hpp:56-59 | Triggers, winners, completions and readings stay within one of each other and are equal when asleep; the readings are the winners' pairs in order |
| `EchoCycle.LoadsNeverRetry` | firmware/edge/src/jsn/driver.hpp:241-255 | Neither interrupt nor thread ever loads an odd or a changed sequence number, so the retry loop never goes round |
| `EchoCycle.ThreadPublishesUndisturbed` | firmware/edge/src/jsn/driver.hpp:109-114 | Every store of a thread-side publish is made with the echo interrupt off |
| `EchoCycle.NeverStuck` | firmware/edge/src/sensor/sensor_cycle.hpp:113-116 | A trigger without its reading always has a step left that changes something and is no edge |
| `EchoCycle.ReadingWithinRank` | firmware/edge/src/sensor/sensor_cycle.hpp:113-137 | However such steps are interleaved, the reading is out within as many of them as the state's rank |
| `EchoCycle.RankBound` | firmware/edge/src/sensor/sensor_cycle.hpp:113-137 | The rank of any state between trigger and reading is positive and at most 27 |
| `EchoCycle.EarlyEchoEmitsTwice` | firmware/edge/src/sensor/sensor_cycle.hpp:113-116 | From every state with a rising edge recorded and the timeout not armed, a falling edge has a timely continuation that emits a reading and a false timeout for one trigger |
| `EchoCycle.TimelyIsExact` | firmware/edge/src/jsn/driver.hpp:193-219 | In every state of a cycle a step leaves one reading per trigger in all timely continuations if and only if it is not the end of an echo before the timeout is armed |
| `EchoCycle.EarlyEchoIsReached` | firmware/edge/src/jsn/driver.hpp:94-103 | A timely run from power-on leads to a state in which the next falling edge is early |
| `RaftElection.QuorumsMeet` | firmware/fog/src/raft/server/server.hpp:167-169 | Two majorities of one cluster share a member |
| `RaftElection.ElectionIsFresh` | firmware/fog/src/raft/server/server_election_impl.inl:299-306 | Nobody collects a majority in a term that already had a leader |
| `RaftElection.NextOk` | firmware/fog/src/raft/server/server_election_impl.inl:213-307 | Every event, a restart included, keeps votes and leaderships consistent |
| `RaftElection.ElectionSafety` | firmware/fog/src/raft/server/server_election_impl.inl:87-307 | In every run of any cluster whoever leads a term at one time and whoever leads it then or later are one server |
| `RaftMatching.MergeResult` | firmware/fog/src/raft/server/server_replication_impl.inl:143-172 | Merging a piece of a leader's log gives a prefix of it or leaves a log that already holds the piece; what both shared stays; with room all of it is in |
| `RaftMatching.ConsistentAgrees` | firmware/fog/src/raft/server/server_replication_impl.inl:93-141 | Passing the consistency check means agreeing with the leader's log up to that index |
| `RaftMatching.NextLogs` | firmware/fog/src/raft/server/server_replication_impl.inl:18-188 | Every event keeps each log entry rooted, with all before it, in the log of its term's leader |
| `RaftMatching.LogMatching` | firmware/fog/src/raft/server/server_replication_impl.inl:70-188 | In every reachable state two logs with an entry of the same term at an index are equal up to it |
| `RaftStanding.NextStands` | firmware/fog/src/raft/server/server_election_impl.inl:236-251 | Every ballot was cast with a log no more up to date than its candidate's, and leaders start from the log they stood with |
| `RaftCompleteness.SharedStays` | firmware/fog/src/raft/server/server_replication_impl.inl:143-172 | What follower and leader shared before an accepted append they share after it |
| `RaftCompleteness.LeaderCompleteness` | firmware/fog/src/raft/server/server_replication_impl.inl:190-220 | Every later leader starts with every entry a majority acknowledged in an earlier leader's own term |
| `RaftCompleteness.NextAcks` | firmware/fog/src/raft/server/server_replication_impl.inl:70-275 | Every event but a restart keeps what servers acknowledged in their logs and ballots unless a later leader overruled it, whatever followers drop or report |
| `RaftCompleteness.NewAckHeld` | firmware/fog/src/raft/server/server_replication_impl.inl:143-186 | What a follower shares with the leader after an accepted append, even one that found no room for all of it, it still has |
| `RaftSafety.AdvanceResult` | firmware/fog/src/raft/server/server_replication_impl.inl:190-220 | A leader's commit index stays or lands on an entry of its own term counted on a majority |
| `RaftSafety.AppendKeepsCommit` | firmware/fog/src/raft/server/server_replication_impl.inl:143-172 | Merging a leader's entries never removes what the follower had committed |
| `RaftSafety.NextInv` | firmware/fog/src/raft/server/server_replication_impl.inl:70-275 | Every event but a restart keeps each commit index backed by a majority if what a message commits finds room and what a leader commits a majority holds |
| `RaftSafety.CommittedForever` | firmware/fog/src/raft/server/server_replication_impl.inl:190-220 | What is committed stays committed, as the same entries, for the rest of every run with that care |
| `RaftSafety.StateMachineSafety` | firmware/fog/src/raft/server/server_replication_impl.inl:277-290 | Over runs without restarts, with room for what is committed and leaders that commit what a majority holds: once any server commits an entry at an index no server, then or later, commits another there, and committed entries are in the log |
| `RaftSafety.LeadersHaveCommitted` | firmware/fog/src/raft/server/server_replication_impl.inl:190-220 | In every run with that care a leader's log has every entry committed by a server of its term or an earlier one |
| `RaftSafety.FitsIsExact` | firmware/fog/src/raft/server/server_replication_impl.inl:169-180 | Where leaders count right, what an accepted message commits finds room if and only if after the event commit indices are within their logs and all servers have committed alike |
| `RaftSafety.FitsIsExactOverRuns` | firmware/fog/src/raft/server/server_replication_impl.inl:169-180 | Over every run without restarts in which leaders count right, commit indices stay within their logs throughout if and only if whatever a message commits finds room |
| `RaftSafety.CareIsExact` | firmware/fog/src/raft/server/server_replication_impl.inl:169-220 | An event other than a restart keeps the safety invariant if and only if what it has a follower commit finds room and what it has a leader commit is held by a majority |
| `RaftNextIndex.BackupStarts` | firmware/fog/src/raft/server/server_replication_impl.inl:250-270 | Backing up by a follower's hint never goes on past the first entry its log and the leader's do not share |
| `RaftNextIndex.RefusalHint` | firmware/fog/src/raft/server/server_replication_impl.inl:93-132 | The hint of a refusal describes the follower's log at a place where it differs from the refused leader's |
| `RaftNextIndex.ConflictCuts` | firmware/fog/src/raft/server/server_replication_impl.inl:155-171 | A first entry that conflicts cuts a log back to a part of the leader's |
| `RaftNextIndex.AcceptedInLead` | firmware/fog/src/raft/server/server_replication_impl.inl:143-187 | An append that starts no later than the first difference leaves the follower's log a part of the leader's |
| `RaftNextIndex.NextSends` | firmware/fog/src/raft/server/server_replication_impl.inl:18-275 | Every event, a restart included, keeps next indices, messages and hints in order if leaders submit only after their no-op and then hear no hintless refusal from their term |
| `RaftNextIndex.RepliesAreShared` | firmware/fog/src/raft/server/server_replication_impl.inl:182-186 | In every such run, restarts included, the reply to an append of a leader with its no-op reports only what the follower shares with that leader |
| `RaftGuarded.HoldersHold` | firmware/fog/src/raft/server/server_replication_impl.inl:190-220 | An entry of its own term that a leader counts on a majority a majority has had in step with it |
| `RaftGuarded.NextGuarded` | firmware/fog/src/raft/server/server_replication_impl.inl:18-275 | Every guarded event, whatever finds room, keeps counts and replies true, and the leader that acts commits only what a majority has held |
| `RaftGuarded.LeadersCountRight` | firmware/fog/src/raft/server/server_replication_impl.inl:190-220 | Over every run without restarts, submissions before the no-op and hintless refusals of a leader with it, every commit by counting is of what a majority has held |
| `RaftGuarded.GuardedSafety` | firmware/fog/src/raft/server/server_replication_impl.inl:277-290 | State Machine Safety over such runs with room at followers for what they commit; no word about replies |
| `RaftReplies.TruthfulInLead` | firmware/fog/src/raft/server/server_replication_impl.inl:182-186 | A reply that ends within the message or in the leader's term reports only what is shared |
| `RaftReplies.OnceInStep` | firmware/fog/src/raft/server/server_replication_impl.inl:70-188 | A follower once in step with the leader of a term stays in step for as long as it is in that term, over every run |
| `RaftReplies.ReplyExact` | firmware/fog/src/raft/server/server_replication_impl.inl:182-186 | A reply reports only shared entries for every possible leader log if and only if it ends within the message or in the leader's term |
| `RaftLimits.FullFollowerSkips` | firmware/fog/src/raft/server/server_replication_impl.inl:169-180 | For every capacity and message size a run that takes all care, after which a full follower that has committed nothing, so that no room can be made, commits one entry more than it holds |
| `RaftLimits.RestartsForget` | firmware/fog/src/raft/server/server.hpp:118-121 | For every capacity a run of three servers that takes all other care, with every reply right, in which two restarts make the cluster commit another entry at a committed index |
| `RaftOverstated.NoopRefused` | firmware/fog/src/raft/server/server_election_impl.inl:147-159 | For every capacity above 2 a run that takes all other care in which a leader elected with a full log submits once it has room, commits an entry it alone holds, and a later leader commits another in its place |
| `RaftOverstated.HintlessRefusals` | firmware/fog/src/raft/server/server_replication_impl.inl:79-87 | For every message size from 3 up to the capacity a run that takes all other care in which a repeated refusal of an old message leads to two different commitments at one index |
| `RaftServer.RaftServer.MaybeStepDown` | firmware/fog/src/raft/server/server_election_impl.inl:36-47 | Adopts a higher term, forgetting vote and role, and nothing else |
| `RaftServer.RaftServer.BecomeCandidate` | firmware/fog/src/raft/server/server_election_impl.inl:87-121 | Stands in the next term with its own vote, and leads at once when alone |
| `RaftServer.RaftServer.BecomeLeader` | firmware/fog/src/raft/server/server_election_impl.inl:123-169 | Leads with no match indices, next indices after the log it stood with, and this term's no-op unless the log is full |
| `RaftServer.RaftServer.HandleRequestVote` | firmware/fog/src/raft/server/server_election_impl.inl:213-255 | New state and reply are those of the voting step of the cluster model |
| `RaftServer.RaftServer.HandleVoteReply` | firmware/fog/src/raft/server/server_election_impl.inl:277-307 | Counts each grant of the current term once and leads exactly at a majority |
| `RaftServer.RaftServer.MergeEntries` | firmware/fog/src/raft/server/server_replication_impl.inl:146-172 | The loop over the entries computes the merge the log theorems are about |
| `RaftServer.RaftServer.FirstOfRun` | firmware/fog/src/raft/server/server_replication_impl.inl:116-123 | Walking back finds the first index of the run of equal terms |
| `RaftServer.RaftServer.HandleAppend` | firmware/fog/src/raft/server/server_replication_impl.inl:70-188 | New state and reply, hint included, are those of the append step of the cluster model |
| `RaftServer.RaftServer.CountHolders` | firmware/fog/src/raft/server/server_replication_impl.inl:207-212 | The count is the size of the set of servers known to hold the index |
| `RaftServer.RaftServer.LeaderAdvanceCommit` | firmware/fog/src/raft/server/server_replication_impl.inl:190-220 | The backward loop computes the commit index of the cluster model |
| `RaftServer.RaftServer.FindLast` | firmware/fog/src/raft/server/server_replication_impl.inl:254-261 | Walking back finds the last entry of the hinted term, or none |
| `RaftServer.RaftServer.BackUp` | firmware/fog/src/raft/server/server_replication_impl.inl:250-269 | The next index after a refusal is that of the cluster model, in all four cases |
| `RaftServer.RaftServer.HandleAppendReply` | firmware/fog/src/raft/server/server_replication_impl.inl:223-275 | New state is that of the reply step of the cluster model, and what is sent next is what that model sends, exactly if the peer lacks something or refused |
| `RaftServer.RaftServer.AppendFor` | firmware/fog/src/raft/server/server_replication_impl.inl:18-67 | The loop collects the append of the cluster model for a peer, or none past the end of the log |
| `RaftServer.RaftServer.SubmitEntry` | firmware/fog/src/raft/server/server_driver_impl.inl:127-184 | A leader with room appends at the returned index; a leader alone also commits; all else is refused |
| `RaftLog.RunShadows` | firmware/fog/src/raft/log/log_ring.hpp:121-169 | Over any legal run the ring is the tail of the plain log and its edge carries the term it cut at |
| `RaftLog.StepShadows` | firmware/fog/src/raft/log/log_ring.hpp:121-169 | A push, truncation or compaction keeps the ring the tail of the plain log |
| `RaftLog.CompactionInvisible` | firmware/fog/src/raft/log/log_ring.hpp:48-114 | After any legal run every answer above the edge and about the end equals that of the log never compacted, and stored indices are positions |
| `RaftLog.NeverOverfull` | firmware/fog/src/raft/log/log_ring.hpp:121-133 | No legal run has more live entries than the capacity |
| `LogRing.LogRing.At` | firmware/fog/src/raft/log/log_ring.hpp:56-67 | The wrapped slot holds the entry at that index; none at or below the edge or past the end |
| `LogRing.LogRing.TermAt` | firmware/fog/src/raft/log/log_ring.hpp:84-99 | The term on values, index 0 and the edge included |
| `LogRing.LogRing.LastTerm` | firmware/fog/src/raft/log/log_ring.hpp:105-114 | The term of the last live entry, or of the edge |
| `LogRing.LogRing.Push` | firmware/fog/src/raft/log/log_ring.hpp:121-133 | Fails exactly at capacity, else appends and overwrites no live entry |
| `LogRing.LogRing.TruncateSuffix` | firmware/fog/src/raft/log/log_ring.hpp:140-152 | Keeps exactly the live entries below the index |
| `LogRing.LogRing.CompactTo` | firmware/fog/src/raft/log/log_ring.hpp:161-169 | Keeps exactly the live entries above the index, across the wrap |
| `LogRing.LogRing.ResetTo` | firmware/fog/src/raft/log/log_ring.hpp:179-184 | An empty ring at the snapshot edge |
| `Egress.BestOfIsBest` | firmware/fog/src/egress/egress_tracker.hpp:72-83 | The scan finds a STARTED record no other STARTED record exceeds, or there is none |
| `Egress.RecentStep` | firmware/fog/src/egress/egress_tracker.hpp:41-59 | One record keeps ring and history in step if and only if it is not for an evicted sequence |
| `Egress.RingIsRecentHistory` | firmware/fog/src/egress/egress_tracker.hpp:41-59 | The ring holds the last CAP sequences seen at every point of a run if and only if no evicted sequence comes back |
| `Egress.HistoryContents` | firmware/fog/src/egress/egress_tracker.hpp:47-59 | Each sequence ever seen is kept with its first batch index and its latest phase |
| `Egress.OutstandingAgrees` | firmware/fog/src/egress/egress_tracker.hpp:72-94 | The ring gives the unbounded answer whenever that answer is still in it |
| `EgressCluster.BeginIsFresh` | firmware/fog/src/egress/egress_coordinator.hpp:73-89 | The sequence an orderly leader takes is above every sequence in the log |
| `EgressCluster.RedriveIsOriginal` | firmware/fog/src/egress/egress_coordinator.hpp:109-118 | A re-drive repeats sequence and batch of a STARTED record that nothing has closed |
| `EgressCluster.NextSound` | firmware/fog/src/egress/egress_coordinator.hpp:63-145 | Every orderly event of any node keeps log, trackers and uplinks consistent |
| `EgressCluster.RunSound` | firmware/fog/src/egress/egress_coordinator.hpp:63-145 | The same over every orderly run |
| `EgressCluster.SequencesRise` | firmware/fog/src/egress/egress_coordinator.hpp:73-118 | Over every orderly run of any cluster new uplinks get strictly rising sequences and every uplink sent is a STARTED record |
| `EgressCluster.NodesAgree` | firmware/fog/src/egress/egress_tracker.hpp:72-94 | In every run, orderly or not, nodes that applied the same records name the same outstanding record, whoever has been asked before |
| `EgressCluster.OrderlyBeginIsExact` | firmware/fog/src/egress/egress_coordinator.hpp:79-82 | A leader's sequence is above all in the log if and only if it has applied every uplink begun so far |
| `EgressCluster.OrderlyElectionIsExact` | firmware/fog/src/egress/egress_tracker.hpp:89-90 | For a node that applied every uplink begun, the sequence adopted from the outstanding one is above all in the log if and only if the outstanding one is the highest |
| `EgressCluster.HastyBeginRepeats` | firmware/fog/src/egress/egress_coordinator.hpp:79-88 | A run in which an uplink begins before the last one is applied, and two uplinks begin under one sequence |
| `EgressCluster.LoweredSequenceRepeats` | firmware/fog/src/egress/egress_tracker.hpp:89-90 | A run whose uplinks all begin in order and in which, for every ring of more than one record, a new leader begins a second uplink under a used sequence |
| `EgressCoordinator.EgressTracker.OnApply` | firmware/fog/src/egress/egress_tracker.hpp:41-59 | The ring slots, from the oldest on, follow the value model |
| `EgressCoordinator.EgressTracker.UpdateInPlace` | firmware/fog/src/egress/egress_tracker.hpp:47-53 | The record of that sequence gets the new phase and keeps its batch index and its place |
| `EgressCoordinator.EgressTracker.Overwrite` | firmware/fog/src/egress/egress_tracker.hpp:55-58 | The new record takes the place of the oldest once the ring is full, across the wrap |
| `EgressCoordinator.EgressTracker.Outstanding` | firmware/fog/src/egress/egress_tracker.hpp:72-94 | Scanning in slot order finds the value model's record and adopts its successor |
| `EgressCoordinator.EgressCoordinator.OnEgressApplied` | firmware/fog/src/egress/egress_coordinator.hpp:63-66 | Passes the record to the tracker and does nothing else |
| `EgressCoordinator.EgressCoordinator.BeginEgress` | firmware/fog/src/egress/egress_coordinator.hpp:73-89 | A leader submits STARTED first and dispatches under the same sequence only if that is accepted; others do nothing |
| `EgressCoordinator.EgressCoordinator.OnBecameLeader` | firmware/fog/src/egress/egress_coordinator.hpp:109-118 | Dispatches the outstanding record under its own sequence, submits no new STARTED and keeps the ring |
| `EgressCoordinator.EgressCoordinator.OnLorawanOk` | firmware/fog/src/egress/egress_coordinator.hpp:97-103 | What it asks for is the confirmation event of the uplink handed to the modem, in every cluster |
| `EgressCoordinator.EgressCoordinator.Dispatch` | firmware/fog/src/egress/egress_coordinator.hpp:127-145 | What it asks for has the effect of the cluster's dispatch of that batch: handed over, given up or dropped |
| `EgressCoordinator.BeginIsEvent` | firmware/fog/src/egress/egress_coordinator.hpp:73-89 | The actions of an accepted uplink have the effect of the cluster's event in which it begins |
| `EgressCoordinator.ElectedIsEvent` | firmware/fog/src/egress/egress_coordinator.hpp:109-118 | What a new leader does has the effect of the cluster's event of its election |
| `Policy.EvaluateIsFirstEffective` | gateway/server/policy/policy.go:113-203 | An evaluation does to each actuator exactly the action of the first effective rule for it, judged in the starting state |
| `Policy.EvaluateIsLocal` | gateway/server/policy/policy.go:113-203 | Rules for other actuators make no difference to an actuator |
| `Policy.ActsAtMostOnce` | gateway/server/policy/policy.go:153-201 | No actuator is acted on twice in one evaluation |
| `Policy.ChosenOutranks` | gateway/server/policy/policy.go:38-40 | With sorted rules the rule acted on has at least the priority of every other effective one |
| `Policy.OperatorOnlyNeverMoves` | gateway/server/policy/policy.go:160-185 | Over any run of advisories an actuator whose rules all need an operator keeps its state and its device |
| `PolicyEngine.Engine.SetRules` | gateway/server/policy/policy.go:94-102 | The same rules, sorted by falling priority |
| `PolicyEngine.Engine.Evaluate` | gateway/server/policy/policy.go:113-203 | The loop over daemon, backend and queue computes the value model's evaluation |
| `PolicyEngine.Engine.Consider` | gateway/server/policy/policy.go:122-201 | One matching rule, with all its failure answers, is one step of the value model |
| `PolicyEngine.Engine.ApprovePending` | gateway/server/policy/policy.go:207-218 | Executes the approved action and leaves the queue alone |
| `Actuation.RunFaithful` | gateway/server/actuator/actuator.go:104-215 | Over any run with any drive failures tracked actuators are enabled specs and each is where the backend last accepted it |
| `Actuation.FailsafeReached` | gateway/server/actuator/actuator.go:202-215 | After a failsafe drive an actuator is at its failsafe unless its drive failed, and then it has not moved |
| `Actuation.MovesAreAllowed` | gateway/server/actuator/actuator.go:142-183 | A tracked state only ever changes to a state of the actuator's spec or its failsafe |
| `ActuatorDaemon.Daemon.SetSpecs` | gateway/server/actuator/actuator.go:104-132 | Enabled specs replace the old, new actuators accepted by the backend start at failsafe, removed ones are forgotten |
| `ActuatorDaemon.Daemon.InitNew` | gateway/server/actuator/actuator.go:116-123 | Whatever the map order, exactly the untracked actuators the backend accepts are driven to failsafe |
| `ActuatorDaemon.Daemon.ApplyLocked` | gateway/server/actuator/actuator.go:187-198 | State and device move together, and only if the backend accepts |
| `ActuatorDaemon.Daemon.Execute` | gateway/server/actuator/actuator.go:142-183 | Outcome and new state for unknown actuator, invalid state, no change, failed drive and success |
| `ActuatorDaemon.Daemon.DriveAllFailsafe` | gateway/server/actuator/actuator.go:202-215 | Whatever the map order, exactly the actuators away from failsafe whose drive is accepted move, and to failsafe |
| `EdgeSequence.CoapService.Init` | firmware/edge/src/sensor/sensor_coap.hpp:57-59 | Resumes from flash and puts flash one step ahead |
| `EdgeSequence.CoapService.SendSensorData` | firmware/edge/src/sensor/sensor_coap.hpp:67-118 | Sends the counter and advances it, saving at whole steps; an unsigned reading changes nothing |
| `EdgeSequence.RunIsExpected` | firmware/edge/src/sensor/sensor_coap.hpp:57-118 | Over any boots without 32-bit wrap flash is a whole number of steps, at most one ahead and less than one behind, and the sequences sent are those expected |
| `EdgeSequence.NoRepeatsIffRested` | firmware/edge/src/sensor/sensor_coap.hpp:24-32 | Over any boots without 32-bit wrap the node sends no sequence twice if and only if no boot that ran past a whole step, more than one, is followed by a boot that sends |
| `EdgeSequence.ShortBootsNeverRepeat` | firmware/edge/src/sensor/sensor_coap.hpp:24-32 | Boots of at most one step each send strictly rising sequences |
| `EdgeSequence.OverrunRepeats` | firmware/edge/src/sensor/sensor_coap.hpp:116-118 | After an overrun a later boot that sends repeats a sequence the node has sent |
| `Replay.SensorReplayDetection.FirstMatch` | firmware/fog/src/security/sensor_replay_detection.hpp:64-68 | Finds the sensor's slot; EUI 0 unknown to the table finds the first empty slot |
| `Replay.SensorReplayDetection.FindOrCreate` | firmware/fog/src/security/sensor_replay_detection.hpp:63-78 | The sensor's slot or the first inactive one, or none exactly when a new sensor meets a full table |
| `Replay.SensorReplayDetection.CheckFresh` | firmware/fog/src/security/sensor_replay_detection.hpp:32-55 | The table refines a map of last sequences, EUI 0 included; refused only if not newer or full |
| `Replay.AcceptedRise` | firmware/fog/src/security/sensor_replay_detection.hpp:32-55 | Over any run the map stays within its size, holds each sensor's last accepted sequence, and accepted sequences rise strictly |
| `Replay.RefusalCount` | firmware/fog/src/security/sensor_replay_detection.hpp:48-54 | Of n readings numbered on from a restart exactly those not newer than the last accepted are refused |
| `Replay.RebootCostsLessThanAStep` | firmware/edge/src/sensor/sensor_coap.hpp:113-118 | After a reboot, whichever earlier readings arrived, exactly those numbered up to the last accepted one are refused, fewer than 1000, and the rest accepted |
| `Gateway.Hub.IsUnique` | gateway/server/telemetry/hub.go:43-57 | False exactly when the sequence is among the last capacity uplinks, or is 0 while the ring is not full |
| `Gateway.Hub.Record` | gateway/server/telemetry/hub.go:70-76 | The ring follows the sequence of all uplinks recorded |
| `Gateway.Hub.Snapshot` | gateway/server/telemetry/hub.go:94-106 | The last min(n, capacity) uplinks, oldest first |
| `Gateway.Hub.HandleUplink` | gateway/server/telemetry/bridge.go:85-92 | Records an uplink exactly if it is unique |
| `Gateway.DuplicatesFarApart` | gateway/server/telemetry/bridge.go:85-92 | Over any uplinks equal sequences are recorded only more than capacity apart |
| `Gateway.SequenceZeroWaits` | gateway/server/telemetry/hub.go:50-54 | Sequence 0 is never among the first capacity uplinks recorded |
| `Gateway.Bridge.EnqueueEgress` | gateway/server/telemetry/bridge.go:136-142 | Adds the event behind all that waits |
| `Gateway.Bridge.TakePending` | gateway/server/telemetry/bridge.go:165-172 | Everything that waits goes in flight, nothing if the buffer is empty |
| `Gateway.Bridge.Settle` | gateway/server/telemetry/bridge.go:174-182 | A failed batch goes back in front of what arrived meanwhile |
| `Gateway.EventsConserved` | gateway/server/telemetry/bridge.go:136-183 | At every interleaving with one flusher delivered, in flight and pending, in that order, are the events enqueued |
| `UplinkPath.KeptIsHandled` | gateway/server/telemetry/bridge.go:85-92 | The arrivals counted as recorded are those the gateway's filter records of what it sees |
| `UplinkPath.OneUplinkPerSequence` | firmware/fog/src/egress/egress_coordinator.hpp:73-118 | Over every orderly run two uplinks handed to the modem under one sequence are the same uplink |
| `UplinkPath.DroppedIsKnown` | gateway/server/telemetry/hub.go:43-57 | Of what arrives from an orderly run, in any order and however often, a dropped uplink is itself among the last capacity recorded, or it is sequence 0 before the ring is full |
| `UplinkPath.RecordedOnceIffPrompt` | gateway/server/telemetry/bridge.go:85-92 | Over any arrivals each sequence is recorded at most once if and only if every repetition of a recorded one comes with fewer than capacity others recorded in between |
| `UplinkPath.ResentIsRecordedOnce` | firmware/fog/src/egress/egress_coordinator.hpp:109-118 | Of prompt arrivals from an orderly run every uplink is recorded at most once however often leaders re-drive it, no other takes its place under its sequence, and only STARTED batches are recorded |
| `Wire.ReadWritten` | gateway/chirpstack-codec/codec.js:5-21 | Reading n little-endian bytes gives back any value below 256 to the n |
| `Wire.EntryRoundTrip` | firmware/fog/src/lorawan/protocol.hpp:20-26 | An entry packed at any offset decodes to the same fields |
| `Wire.HeaderRoundTrip` | firmware/fog/src/lorawan/protocol.hpp:28-36 | A packed header decodes to the same fields |
| `Wire.DecodeUplink` | gateway/chirpstack-codec/codec.js:26-88 | For any bytes: refused exactly below 22 bytes, else in-bounds reads and the smaller of the count and the whole entries present |
| `Wire.DecodeRestores` | gateway/chirpstack-codec/codec.js:26-88 | For every payload of at most three entries the decoder restores every header and entry field |
| `Uplink.HexRoundTrip` | firmware/fog/src/lorawan/protocol.hpp:66-91 | Printed as hex and read back, any bytes are unchanged |
| `Uplink.ToHex` | firmware/fog/src/lorawan/protocol.hpp:74-91 | Fills exactly its part of the buffer with the hex text, or writes nothing if it does not fit |
| `Uplink.BuildUplink` | firmware/fog/src/lorawan/join.hpp:158-184 | The whole command and nothing past it, or an untouched buffer exactly when it does not fit |
| `Uplink.UplinkRoundTrip` | firmware/fog/src/lorawan/join.hpp:158-184 | The text between the quotes decodes to the payload's bytes |
| `Uplink.DecodeToken` | firmware/fog/src/lorawan/modem.hpp:254-274 | The bytes the token stands for, as many as fit, and the rest of the buffer as it was |
| `Uplink.HandleDownlink` | firmware/fog/src/lorawan/modem.hpp:229-283 | The first token of paired hex digits is decoded; without one, or without a buffer, nothing changes |

## Left out

- Raft snapshots: InstallSnapshot and compaction inside the handlers, and the apply callback; the `Raft` logs start at index 1 and `RaftLog` shows that the ring looks like such a log.
- Raft timing: election timers, pre-votes, the live-leader guard and contact checks only decide when something happens, so any server that does not lead may stand and any message may be ignored.
- Raft capacity: where the live part of a log starts is left open between its beginning and the commit index.
- RaftGuarded.GuardedSafety: room for what is committed and right counts are exact (`CareIsExact`); restarts, early submissions and hintless refusals are each shown to break safety, but a single run that has one may still be safe.
- RaftReplies.ReplyExact: exact for what the follower can know, leaders without a no-op included.
- EchoCycle.OneReadingPerTrigger: over timely runs, see `TimelyIsExact`; the driver and cycle are modelled on values as interleaved atomic steps, sequentially consistent on one core, with an unbounded sequence counter; `reschedule`, `abort` and relaxed memory order are not modelled.
- Seqlock.NoTornRead: one publisher at a time and an unbounded sequence counter, as above.
- Medians.NthElement: the library's partial selection is modelled by one algorithm with the library's contract.
- VoteEngine.VoteEngine.Accumulate: the reported bit mask is one flag per slot, as for up to 32 sensors; the batch-full break and the empty-batch return cannot be reached.
- LogRing.LogRing.Push: the 32-bit widths of count and head and the 64-bit index are unbounded.
- LogRing.LogRing.LastTerm: the fallback for a missing last entry cannot be reached and is not modelled.
- Gateway.Hub.Record: the failure to marshal an uplink and the broadcast to clients are not modelled.
- UplinkPath.ResentIsRecordedOnce: that at least one copy arrives is up to the radio; orderly runs use up no more than the 32 bits of a sequence.
- Gateway.Bridge.Settle: one flusher, as the service starts; concurrent callers of `HandleUplink` and of `evaluate` are not modelled.
- PolicyEngine.Engine.SetRules: the library's sort is not stable, so the order of rules with equal priority is left open.
- PolicyEngine.Engine.Evaluate: the operator queue is a set of pairs and every outside call is an answer given with the rule; contents of queued advisories are not modelled.
- EgressCoordinator.EgressCoordinator.Dispatch: contents of batches and the mutex are not modelled.
- EgressCluster.SequencesRise: over runs in which each accepted STARTED is applied before the next uplink begins and the outstanding sequence of a new leader is its highest.
- Wire.DecodeUplink: bit operations are byte-weighted sums, 64-bit ids stay numbers, names of validity codes and the port warning are not modelled.
- EdgeSequence.RunIsExpected: counters that reach their 32-bit limit are outside the run theorems; the methods themselves wrap.
- Signing, key derivation, CoAP, OpenThread, flash and modem chat, SQL, HTTP, MQTT, web sockets and webhooks: foreign calls, present only as the events and answers they deliver.
- Watchdog ticking, poll intervals and join back-off only choose when the modelled operations happen; severity thresholds and fault injection compute single values that no result here depends on; the dashboard only displays.
