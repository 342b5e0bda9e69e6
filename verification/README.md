# A verified model of Falak's coordination core

Falak places containers ("capsules") on the nodes of a peer-to-peer cluster without a leader. Each node scores itself,
waits in proportion to its score, claims the capsule over gossip and listens for better claims. This project models
that election and the machinery around it in Dafny, and proves what the code keeps over whole runs.

The pieces, from the centre outwards:

- **Election.** `Claims` is the tiebreak. `ElectionProtocol` is a timed step system over any number of nodes: rounds,
  delay-bounded packets, listener queues, the publish-before-listen buffer. Time is urgent, timers and deliveries are
  handled when due, except that a claim may be stamped up to a bounded time after its publish timer. `ElectionSafety`
  proves when no two nodes win, `ElectionTraffic` that small clusters never overflow a queue, `ElectionOutcome` who wins
  and by when, `ElectionProgress` that runs do not get stuck, `ElectionLimits` that the timing bounds are exact, and
  `ElectionTies` what late stamps do to equal scores. `ElectionHistory` traces every verdict back to the steps that led
  to it, and `ElectionGossip` follows claims and failures to the nodes they reach.
- **Inside one node.** `ElectionManager` (in-flight rounds and the claim guard), `ElectionTopic` and `TopicBuffer`
  (listeners, buffer, sweep), `TopicConservation` (no message is lost or doubled in between), `TopicOrder` (order,
  and causes of loss), `Canonical` (signed bytes), `Dedup` (at-most-once acceptance).
- **Scoring and waiting.** `Placement` (eligibility), `Gravity` (the score), `GravityFactors` (what each factor measures),
  `GravityLaws` (laws of the score), `Delay` (from score to wait), `DelayElection` (the delay strategy plugged into the
  election).
- **Health.** `Health` (scores, thresholds, quarantine) and `Responder` (which nodes answer a ping request).
- **Capsules.** `Capsules` (store, lifecycle machines, database rows), `ReplicaSlots` and `Decimal` (slot numbers).
- **API.** `Watch` (the lossy buffer of a watch stream).
- `Reals`, `FiniteSets` and `Options` hold shared arithmetic, sizes of sets and the option type.

Objects that the Go code updates in place are classes whose methods are proved equal to one step of a transition
function; the theorems are about runs of that function. Floats are reals, durations are integer nanoseconds, and
integer widths are written out where they matter. Clocks, jitter, publish outcomes and database outcomes are parameters.

## Findings

Properties that do not hold of the code as it stands, each with a run that breaks it and the exact condition under
which it holds:

- A single winner needs every publish call to end within the tiebreak window. The default publish timeout is 3 s and the
  default window 300 ms (election/manager.go:232-234), so slow publishes can produce two winners
  (`ElectionLimits.SlowPublish`, `ElectionLimits.BoundsAreExact`).
- The tiebreak compares a rival's actual time stamp with the local node's planned time (election/manager.go:540-547,
  646-656). Stamps are taken after the timer, so they are late, and two nodes of equal score whose plans are closer
  than the lateness plus a microsecond can both win (`ElectionTies.LateStamps`, `ElectionTies.SpacingIsExact`). With the
  delay strategy, any set of nodes is safe under all starts, jitter and schedules if and only if the scores of its
  eligible nodes differ pairwise (`DelayElection.SafeIffUntied`).
- A failed round clears the claim flag of its capsule even while another round holds it (election/manager.go:694), so a
  node can win two replicas. It can do so after an event if and only if that event takes the flag from a holder or a win
  (`ElectionManager.TimeoutLetsNodeWinTwice`, `ElectionManager.SecondWinIffTheft`).
- The watch code promises to drop the oldest event when a client is slow; if the client reads nothing meanwhile, the new
  event is lost as well (`Watch.UnreadOverflowLosesTwo`, `Watch.NewEventSurvivesIff`).
- A capsule received again, a first-time capsule with an unknown status, and a mirrored status whose database write fails
  separate the stored status from the lifecycle machine (`Capsules.EventKeepsSyncIff`,
  `Capsules.ReceivedAgainBreaksSync`).
- The syncer and the phonebook subscriber write health states without the score tracker: they quarantine and remove
  peers (node/sync/syncer.go:887-930) and overwrite members with a score of 0 and a status from elsewhere
  (node/sync/syncer.go:491-543, node/phonebook/subscriber.go:190-224), and the monitor removes nodes after the tracker
  has let go (node/health/monitor.go:588-597). Timers are left as they are, so some quarantined nodes never fail and some
  active nodes do. `Health.EventKeepsInStepIff` says exactly which writes keep status, score and timer together;
  `Health.SyncerBreaksStep` and `Health.MergeFailsActiveNode` are runs that break them.
- Slot numbers are narrowed to 32 bits and can collide beyond that (`ReplicaSlots.FreshIffFits`).

## Model

| member | source | states |
|---|---|---|
| `Claims.TiebreakIsStrictTotalOrder` | election/manager.go:646-656 | The comparison with a rival is a strict total order by score, then time, then the node ID that is a prefix or smaller where the two first differ, applied to the local node's planned claim |
| `Claims.LexIsFirstDifference` | election/manager.go:655 | String comparison is by proper prefix or by the first position where the strings differ |
| `Claims.OnTimeStampsResolve` | election/manager.go:646-656 | Two claims stamped no later than planned, to the microsecond, cannot both be judged not worse |
| `Claims.OnTimeIffNoStandoff` | election/manager.go:540-547 | A node is safe from a standoff with punctual equal-scored rivals if and only if its stamp is not later than its plan, to the microsecond |
| `TopicBuffer.SweepIsStableFilter` | election/topic.go:496-515 | A sweep keeps exactly the messages younger than the cutoff, in arrival order |
| `TopicBuffer.Compact` | election/topic.go:496-515 | The in-place compaction leaves the filtered messages at the front of the same array |
| `ElectionSafety.StepKeepsInv` | election/manager.go:461-641 | Every enabled step of every node keeps the pairwise invariant about where each live claim is and who may still publish |
| `ElectionSafety.WindowHasSeenAll` | election/manager.go:571-600 | When a node's window closes it has judged every live rival claim |
| `ElectionSafety.WinnersStandOff` | election/manager.go:571-600 | Two different winners have judged each other's stamped claims against their own plans and both stood their ground |
| `ElectionSafety.SweepKeepsYoung` | election/topic.go:496-515 | A claim buffered less than the TTL ago survives a sweep |
| `ElectionSafety.SingleWinner` | election/manager.go:461-656 | In every run of one election, with any number of nodes, bounded delays, skew, publish times and lateness and no full queue, in which publishers of equal score stamp no later than planned, at most one node reports Won |
| `ElectionSafety.SpacedTiesAreSafe` | election/manager.go:507-547 | However late the stamps, at most one node wins when plans of equal score are not in the past and further apart than the lateness |
| `ElectionTraffic.RunKeepsTraffic` | election/topic.go:421-475 | Every claim anywhere is one that its node stamped, and each reaches a given node at most once |
| `ElectionTraffic.SmallClusterNeverOverflows` | election/manager.go:469 | With at most capacity + 1 nodes (17 as configured) no run ever drops a claim from a full queue |
| `ElectionOutcome.VerdictInTime` | election/manager.go:484-641 | Every round has its verdict by its start plus the timeout, the lateness and the longer of publish bound and window |
| `ElectionOutcome.VerdictIsFinal` | election/manager.go:555-641 | A verdict never changes in any continuation of a run |
| `ElectionOutcome.ExactlyTheFavouriteWins` | election/manager.go:484-641 | In every undisturbed run in which every plan precedes its deadline and the ineligible nodes can still hear the favourite, the node with the unique best score wins, every other node loses, and all have decided by their bound |
| `ElectionProgress.NeverStuck` | election/manager.go:507-641 | In every reachable state some step is enabled that needs no failure or cancellation |
| `ElectionProgress.StepWorks` | election/manager.go:461-641 | Every step other than the clock and the sweeper uses up a finite amount of work |
| `ElectionProgress.RunReaches` | election/manager.go:461-641 | Every undisturbed run can be continued to any time |
| `ElectionProgress.ElectionCompletes` | election/manager.go:461-641 | Every undisturbed run of a small cluster has a continuation with the favourite as winner and all others as losers |
| `ElectionLimits.SlowAnswer` | election/manager.go:571-600 | A run with two winners of different score whenever twice the delay plus the lateness reaches the window |
| `ElectionLimits.SlowPublish` | election/manager.go:540-600 | A run with two winners of different score whenever a publish can last the whole window |
| `ElectionLimits.LateStart` | election/manager.go:571-600 | A run with two winners of different score whenever skew, delay and lateness together reach the window |
| `ElectionLimits.SweptClaim` | election/topic.go:496-515 | A run with two winners of different score whenever the skew reaches the buffer TTL |
| `ElectionLimits.StaleClaim` | election/topic.go:383-389 | A run with two winners of different score whenever messages can travel for longer than the maximum age |
| `ElectionLimits.PastPlans` | election/manager.go:646-656 | A run with two winners of equal score whose plans lie in the past |
| `ElectionLimits.BoundsAreExact` | election/manager.go:461-656 | All runs in which publishers of equal score stamp on time have at most one winner if and only if five bounds on delay, maximum age, lateness, publish time, skew and TTL hold |
| `ElectionTies.LateTieRun` | election/manager.go:507-600 | Among any number of nodes that start together, two of equal score with close plans have a run in which both win |
| `ElectionTies.LateStamps` | election/manager.go:540-547 | Whenever stamps can be late, a run with two winners of equal score whose plans are closer than the lateness plus a microsecond |
| `ElectionTies.SpacingIsExact` | election/manager.go:461-656 | With nothing assumed about stamps, all elections whose equal-scored plans are not in the past and at least a gap apart are safe if and only if the five bounds hold and stamps are never late or the gap is at least the lateness plus a microsecond |
| `ElectionHistory.SteppedAside` | election/manager.go:486-538 | In every run a node that is ineligible, already holds a claim for the capsule or finds the claim slot taken never stamps a claim, never wins or is about to, and no claim of it is anywhere |
| `ElectionHistory.StepDecides` | election/manager.go:507-641 | A step makes a round win, lose to a given node or fail if and only if the code has that reason |
| `ElectionHistory.VerdictHasCause` | election/manager.go:507-641 | In every run every verdict was given by one such step |
| `ElectionHistory.StampHasReserve` | election/manager.go:528-547 | In every run a stamp is the time at which the node took its free claim slot, after it started eligible |
| `ElectionHistory.ContenderPublished` | election/manager.go:528-570 | In every run a node in or past its tiebreak window started eligible, took the slot and published without error, in this order |
| `ElectionHistory.LoserNamesClaimant` | election/manager.go:516-521 | In every run a loser names another node that stamped a claim, one that beats the loser's plan unless the loser had stepped aside |
| `ElectionHistory.UnsentNeverArrives` | election/manager.go:549-562 | After a failed publish a node that was not reached never gets the claim |
| `ElectionHistory.NothingIsLostOnTheWay` | election/topic.go:383-421 | In every run a packet leaves the network only by delivery or by withdrawal in a failed publish |
| `ElectionGossip.HeardInOrder` | election/topic.go:67-88 | In every run what a round has read and what is queued are what entered its queue, in order |
| `ElectionGossip.BufferedInOrder` | election/topic.go:421-475 | In every run messages wait for the listener in the order of their arrival |
| `ElectionGossip.FirstClaimEndsWait` | election/manager.go:507-527 | A round that reads a claim while it waits loses, or stamps its own within the lateness, however far away its plan |
| `ElectionGossip.FailureIsTold` | election/manager.go:666-708 | In every run a failed round's message is on its way to every other node, waits there, or no longer matters there |
| `ElectionGossip.FailureEndsWaiting` | election/manager.go:509-515 | Once a node has failed and the delay has passed, a round still waiting reads the failure before the clock moves on |
| `ElectionManager.GuardKeptIffNotStolen` | election/manager.go:666-708 | A step keeps the claim guard if and only if it does not clear the flag from under another round or a win |
| `ElectionManager.ClaimGuard` | election/manager.go:497-538 | In every interleaving without such a step the flag is set exactly when one round holds it or one replica has been won |
| `ElectionManager.AtMostOneReplicaWon` | election/manager.go:586-592 | In such runs a node wins at most one replica of a capsule |
| `ElectionManager.TimeoutLetsNodeWinTwice` | election/manager.go:666-708 | A run in which a timed-out round lets the node win two replicas |
| `ElectionManager.TheftLetsNodeWinTwice` | election/manager.go:666-708 | After every event of a guarded run that clears the flag of another owner, the run can go on, without a further theft, to a second win |
| `ElectionManager.SecondWinIffTheft` | election/manager.go:666-708 | After an event of a run without thefts, a second win can be reached without a further theft if and only if the event was a theft |
| `ElectionManager.OneReportPerRequest` | election/manager.go:412-449 | Accepted requests for a key are those reported plus the one in flight; a repeated request for a running round changes nothing |
| `ElectionManager.RefusalIsFirstMissing` | election/manager.go:400-432 | A request is refused for the first of the five checks that fails; the last two are made for new rounds only |
| `ElectionManager.RequestStartsIff` | election/manager.go:400-449 | A request leaves a round in flight if and only if there was one or nothing is missing, and touches no other |
| `ElectionManager.StepsAsideIff` | election/manager.go:486-538 | A round steps aside if and only if it is ineligible or its capsule is claimed, at its decision or before publishing |
| `ElectionManager.HolderIsEligible` | election/manager.go:486-538 | In every run a round that holds the flag was requested, found eligible while the flag was clear, and then took the clear flag, with no other decision since the request |
| `ElectionManager.WinnerWasEligible` | election/manager.go:571-600 | In every run each reported win has such a history, so an ineligible node never wins |
| `ElectionManager.Manager.HandleRequest` | election/manager.go:400-450 | One step of the ledger; refused for the first of five reasons that applies, and collapsed onto a running round |
| `ElectionManager.Manager.HasLocalClaim` | election/manager.go:761-765 | Reads the flag |
| `ElectionManager.Manager.TryClaimCapsule` | election/manager.go:771-779 | Sets the flag, and says whether it was clear |
| `ElectionManager.Manager.ReleaseCapsuleClaim` | election/manager.go:784-788 | Clears the flag of the one capsule |
| `ElectionManager.Manager.DecideRound` | election/manager.go:497-505 | A node that is ineligible or has claimed the capsule steps aside |
| `ElectionManager.Manager.Claim` | election/manager.go:528-538 | A round proceeds only if it takes the flag |
| `ElectionManager.Manager.Surrender` | election/manager.go:549-562 | A round that fails or loses gives the flag back |
| `ElectionManager.Manager.ReportOutcome` | election/manager.go:666-708 | Reports once, and clears the flag on failure whoever holds it |
| `ElectionManager.Manager.RemoveInflight` | election/manager.go:751-755 | The key can be requested again |
| `ElectionManager.Manager.ForgetCapsule` | election/manager.go:797-799 | Clears the flag of a capsule that is gone |
| `TopicConservation.RunLocates` | election/topic.go:230-275 | In every run there is a map that says where each accepted message is |
| `TopicConservation.MessagesAreConserved` | election/topic.go:421-475 | In every run each accepted message is in exactly one place: buffered, in hand, queued, read, or dropped for a stated reason; no key has both a listener and a buffer, and no buffered list is empty |
| `TopicOrder.ReadInOrder` | election/topic.go:67-88 | In every run and for each listener, what was read and what is queued are what was queued, in order |
| `TopicOrder.ReplayInOrder` | election/topic.go:250-270 | A new listener is offered everything buffered for its key, each message once, in the order of the buffer |
| `TopicOrder.BufferInOrder` | election/topic.go:421-475 | In every run buffers hold messages in the order of their arrival, whatever is swept |
| `TopicOrder.FateHasCause` | election/topic.go:67-100 | In every run a message is gone only because it was read, its queue was full or closed, the topic stopped, or it was swept when old enough |
| `TopicOrder.StaysRegistered` | election/topic.go:268-275 | A listener stays registered until it is cancelled itself, replaced, or the topic stops |
| `TopicOrder.ChannelHasListen` | election/topic.go:230-245 | In every run each channel was made by a Listen for its key with the size asked for, or 8 |
| `TopicOrder.ClosedIffEnded` | election/topic.go:91-100 | In every run a channel is closed if and only if it was closed itself, replaced, or registered when the topic stopped |
| `ElectionTopic.ClusterTopic.DispatchMessage` | election/topic.go:421-475 | A message goes to its listener's hand or to the buffer of its key |
| `ElectionTopic.ClusterTopic.DeliverNext` | election/topic.go:67-88 | A message in hand is queued, or dropped when the queue is full or closed |
| `ElectionTopic.ClusterTopic.Register` | election/topic.go:230-275 | A new listener replaces and closes the old one and takes over the key's buffer |
| `ElectionTopic.ClusterTopic.CloseListener` | election/topic.go:91-100 | Closes the one channel, and closing it again changes nothing |
| `ElectionTopic.ClusterTopic.Cancel` | election/topic.go:230-275 | Cancelling removes the listener only if it is still the registered one |
| `ElectionTopic.ClusterTopic.ReadClaim` | election/topic.go:49-65 | The oldest queued claim is read once |
| `ElectionTopic.ClusterTopic.SweepBuffer` | election/topic.go:496-515 | Sweeping expires exactly the old messages |
| `ElectionTopic.ClusterTopic.SweepKeys` | election/topic.go:496-515 | Every key's list is filtered and keys left empty are removed |
| `Canonical.ElectionContent` | election/topic.go:529-549 | The election encoder produces the canonical bytes |
| `Canonical.OrbitContent` | capsule/orbit/signing.go:17-44 | The orbit encoder produces the same bytes |
| `Canonical.ContentDecodes` | capsule/orbit/signing.go:17-44 | Canonical bytes decode to the envelope they came from |
| `Canonical.DecodedIsCanonical` | capsule/orbit/signing.go:17-44 | The decoder accepts canonical bytes only |
| `Canonical.ContentIsInjective` | election/topic.go:529-549 | Equal signed bytes if and only if equal kind, payload, sender and timestamp, absent told apart from present |
| `Canonical.Layout` | election/topic.go:529-549 | Kind, payload, sender and timestamp lie one after the other, each behind four bytes of length, the timestamp in eight bytes of two's complement or none |
| `Canonical.BigEndianIsOrdered` | capsule/orbit/signing.go:37-44 | The most significant byte comes first: byte order is numerical order |
| `Canonical.CollisionsBeyondBounds` | capsule/orbit/signing.go:37-44 | Beyond 2^32 bytes or 64-bit timestamps different envelopes sign the same bytes |
| `Dedup.Deduplicator.IsDuplicate` | capsule/orbit/subscription.go:51-63 | The orbit cache answers by presence alone and records what is new |
| `Dedup.Deduplicator.Cleanup` | capsule/orbit/subscription.go:66-76 | Entries older than the retention are removed |
| `Dedup.MessageDedup.IsDuplicate` | node/auth/dedup.go:45-61 | The auth cache answers by age and refreshes an expired entry |
| `Dedup.MessageDedup.EvictExpired` | node/auth/dedup.go:85-95 | Entries older than the TTL are removed |
| `Dedup.RememberedUntilRetention` | capsule/orbit/subscription.go:51-76 | A message that was looked up is remembered until the retention has passed, whenever cleanups run |
| `Dedup.EntryDatesFromNew` | capsule/orbit/subscription.go:51-63 | In every run an entry dates from the latest lookup that found its message new; duplicates do not refresh it |
| `Dedup.NewAgain` | node/auth/dedup.go:45-61 | A message looked up before is new again if and only if a cleanup came later than the retention or, on the auth topic, its entry is older than that |
| `Dedup.UnstampedMessages` | node/auth/pubsub.go:58-79 | A message without a timestamp never turns stale on an orbit and is stale on the auth topic 30 s after the epoch |
| `Dedup.NeverAcceptedAgain` | capsule/orbit/announcement.go:210-226 | After a lookup of a message not too far ahead of the clock no later lookup of it leads to acceptance, however lookups, checks and cleanups interleave |
| `Dedup.AcceptedAtMostOnce` | capsule/orbit/announcement.go:210-226 | In every run at most one check accepts such a message |
| `Dedup.AcceptedTwiceIffTooFarAhead` | capsule/orbit/announcement.go:210-226 | Some run accepts a message twice if and only if its timestamp leads by more than retention minus maximum age, or is missing on an orbit; the auth handler reads a missing one as the epoch |
| `Dedup.AtMostOnceAsConfigured` | node/auth/pubsub.go:58-79 | As configured the safe lead is 270 s on orbits and none on the auth topic |
| `Placement.MatchCapsuleRule` | election/gravity/eligibility.go:236-270 | Near rules hold if and only if the node runs a named capsule, away rules if and only if it runs none |
| `Placement.RuleMatchesNode` | election/gravity/eligibility.go:176-198 | A rule matches exactly the nodes that satisfy its meaning |
| `Placement.LocationRules` | election/gravity/eligibility.go:176-234 | A location rule holds exactly at the places it names, everywhere when it names none, and nowhere with labels it cannot check |
| `Placement.CapsuleRules` | election/gravity/eligibility.go:236-270 | Of a near rule and the same rule with away exactly one holds |
| `Placement.IsEligible` | election/gravity/eligibility.go:89-152 | The reason is the first obstacle in order, and none exactly for eligible nodes |
| `Placement.OneReason` | election/gravity/eligibility.go:89-152 | The specified reason is unique |
| `Gravity.CountSoft` | election/gravity/factors.go:98-113 | The fraction of soft rules that hold, or not applicable without any |
| `Gravity.CountAffinity` | election/gravity/factors.go:121-146 | The fraction of near rules that hold, or not applicable without any or without a lookup |
| `Gravity.CountLabels` | election/gravity/factors.go:153-164 | The fraction of capsule labels found on the node |
| `Gravity.AddFactor` | election/gravity/gravity.go:131-138 | One factor is added to the weighted sum, the weight sum and the breakdown, or skipped |
| `Gravity.Normalize` | election/gravity/gravity.go:150-188 | The penalized sum is scaled into 0 to 100, and 50 without any weight |
| `Gravity.Calculator.Calculate` | election/gravity/gravity.go:112-189 | Eligibility, score and breakdown agree with their definitions on every capsule and node |
| `GravityFactors.SoftIsShare` | election/gravity/factors.go:98-113 | The soft factor times the number of soft rules is the number that hold |
| `GravityFactors.AffinityIsShare` | election/gravity/factors.go:121-146 | The affinity factor is the share of near rules that hold, where a lookup can tell |
| `GravityFactors.LabelsAreShare` | election/gravity/factors.go:153-164 | The label factor is the share of the capsule's labels that the node has |
| `GravityFactors.MatchExtremes` | election/gravity/factors.go:98-164 | The counting factors are 1 exactly when every soft rule or label matches and 0 exactly when none does |
| `GravityFactors.HeadroomIsRemainder` | election/gravity/factors.go:45-90 | Headroom times the whole is what the demand leaves, 0 exactly when it leaves nothing |
| `GravityFactors.HeadroomMeansFit` | election/gravity/eligibility.go:116-136 | A demand that leaves headroom fits, and one that leaves none fits only exactly |
| `GravityFactors.LoadIsLinear` | election/gravity/factors.go:173-180 | Load falls by a fiftieth for each running capsule, from 1 to 0 |
| `GravityFactors.SnapshotGoesByDigest` | election/gravity/factors.go:217-229 | Locality is asked by digest where there is one and by image otherwise |
| `GravityFactors.DiversityIsKnownDatacenter` | election/gravity/factors.go:198-206 | Diversity counts for two or more replicas and asks for a known datacenter |
| `GravityFactors.OneWeightDecides` | election/gravity/gravity.go:131-148 | Where one factor alone has a weight the score is that factor in percent, or 50 if it does not apply |
| `GravityFactors.BreakdownNamesFactors` | election/gravity/gravity.go:131-148 | The breakdown reports each factor that applies, with its value, under its own name |
| `GravityLaws.TightBound` | election/gravity/gravity.go:127-188 | The score lies between 0 and 100 S / (S + P), and reaches the bound if and only if every weighted factor is full and the node is empty or unpenalized |
| `GravityLaws.ScaleInvariant` | election/gravity/gravity.go:127-188 | Scaling all weights by a positive number leaves every score unchanged |
| `GravityLaws.BetterNodeScoresHigher` | election/gravity/factors.go:45-189 | Matching more rules or labels, more free resources, more snapshots, less load or more reliability never make a node ineligible and never lower its score |
| `Delay.BaseWaitRange` | election/delay/strategy.go:217-226 | The base wait runs from nothing at score 100 to the maximum at score 0 |
| `Delay.BaseWaitMonotone` | election/delay/strategy.go:217-226 | A higher score never waits longer, truncation included |
| `Delay.WaitIsExact` | election/delay/strategy.go:161-166 | Below the integer limit the wait is the sum of its three parts, and at most the longest wait of the slot |
| `Delay.WaitModulo` | election/delay/strategy.go:161-166 | Beyond the limit the wait is that sum modulo 2^64, in the 64-bit range |
| `Delay.OtherIdsWaitLikeSlotZero` | election/delay/strategy.go:202-211 | Replica IDs that are not plain non-negative integers wait like slot 0 |
| `Delay.GapDecidesIff` | election/delay/strategy.go:161-247 | In every slot, a score gap decides the publishing order for every pair of scores and every jitter if and only if the wait it is worth covers the jitter |
| `Delay.InTimeIff` | election/manager.go:484-526 | The publish timer precedes the deadline for every score and jitter if and only if the longest wait is below the timeout |
| `Delay.DefaultSlotsInTime` | election/delay/strategy.go:30-43 | With the defaults these are exactly the slots 0 to 63 |
| `Delay.StaggerSeparatesSlots` | election/delay/strategy.go:202-211 | At equal score a lower slot is always scheduled first when the stagger covers the jitter |
| `DelayElection.DelayIsPunctual` | election/delay/strategy.go:161-166 | The delay strategy never plans a claim in the past |
| `DelayElection.FitterNodePlansFirst` | election/delay/strategy.go:146-166 | Of two eligible nodes the fitter plans first when it starts no later and the score difference is worth the jitter |
| `DelayElection.DelayElectionIsSafe` | election/manager.go:461-656 | Elections decided by gravity and delay have at most one winner when publishers of equal score stamp on time, no stamp is ever late, or plans of equal score are apart by the lateness and a microsecond |
| `DelayElection.EqualScoresCanBothWin` | election/delay/strategy.go:146-166 | Among any nodes that start together, two eligible ones of equal score have a schedule with two winners when the latest stamp falls on the microsecond |
| `DelayElection.SafeIffUntied` | election/delay/strategy.go:146-166 | Where stamps can be late, any set of nodes elects at most one winner under all starts, jitter and schedules if and only if the scores of its eligible nodes differ pairwise |
| `DelayElection.SafeTogetherIffUntied` | election/delay/strategy.go:235-247 | The same for nodes that start together at a given instant, when jitter spans a microsecond |
| `DelayElection.FarStartsAreSafe` | election/delay/strategy.go:161-166 | Nodes of equal score that start further apart than jitter, lateness and a microsecond have at most one winner |
| `DelayElection.TiesExist` | election/delay/strategy.go:30-43 | Two healthy nodes of equal score, with the default strategy and timeout and a lateness of one nanosecond, can both win |
| `DelayElection.FittestNodeWins` | election/manager.go:484-641 | In every undisturbed run the eligible node with the highest gravity wins and every other node loses |
| `DelayElection.AssumptionsAreMet` | election/delay/strategy.go:30-43 | The assumptions of these theorems hold of an election with the default strategy, weights and timeout |
| `DelayElection.BetterNodeNeverWaitsLonger` | election/delay/strategy.go:146-166 | Improving a node never makes it ineligible, never lowers its score and never lengthens its base wait |
| `Health.FindBand` | node/health/score.go:84-103 | The loop selects the last band that the cluster size reaches |
| `Health.ComputeEffective` | node/health/score.go:84-103 | Thresholds and timeout are scaled by that band |
| `Health.LastBandIsTightest` | node/health/score.go:84-103 | In a sorted table that is the band with the largest minimum not above the size |
| `Health.MissingBands` | node/health/score.go:84-103 | Without a table the default one is used; with one that starts above the cluster size all thresholds are 0 |
| `Health.ScalingIsUniform` | node/health/score.go:98-102 | Both thresholds scale alike, the timeout by its own factor, and a factor of 1 changes nothing |
| `Health.DefaultThresholds` | node/health/score.go:35-41 | The thresholds and the timeout of each default band |
| `Health.DefaultsAreSane` | node/health/score.go:20-41 | The default bands keep the thresholds positive and in order at every size |
| `Health.ScoreTracker.RecordFailure` | node/health/score.go:161-188 | One failure step of the tracker; a refused score changes nothing and returns the old one |
| `Health.ScoreTracker.RecordSuccess` | node/health/score.go:192-246 | One success step of the tracker, which stops at the first refused write |
| `Health.ScoreTracker.SetScore` | node/health/score.go:250-283 | One update step of the tracker, which ignores refused writes |
| `Health.ScoreTracker.Check` | node/health/score.go:338-392 | The threshold crossing decides status and timer |
| `Health.ScoreTracker.CheckQuarantineTimeouts` | node/health/score.go:298-334 | Exactly the overdue nodes whose status is taken fail and lose their timers |
| `Health.EventKeepsInStepIff` | node/health/score.go:161-392 | An event of the tracker, the monitor, the syncer or the subscriber, with any outcome of the tracker's writes, keeps status and timer in step with the score if and only if it is harmless |
| `Health.HealthFollowsScore` | node/health/score.go:161-392 | In every run of harmless events the status is the one its score calls for, and timers exist exactly for quarantined nodes |
| `Health.HealthFollowsScoreIff` | node/health/score.go:161-392 | A run keeps a node in step throughout if and only if each event is harmless where it occurs |
| `Health.PlainRunsFollowScore` | node/health/score.go:161-392 | Runs of tracker events with taken writes and no lowering update, arrivals of active members and removals of nodes that are not quarantined keep every node in step |
| `Health.SyncerBreaksStep` | node/sync/syncer.go:915-930 | A run in which the syncer quarantines a node with a good score, which no timeout check will then fail |
| `Health.MergeFailsActiveNode` | node/sync/syncer.go:491-543 | A run in which a sync message makes a quarantined node active at score 0 and a timeout check then fails it |
| `Health.TimerMarksCrossing` | node/health/score.go:338-392 | In every run a timer dates from the latest crossing of the quarantine threshold, with no taken success and no alive update since |
| `Health.FailureNeedsTimeout` | node/health/score.go:298-334 | In every run a node becomes Failed only by a check, more than the timeout after it crossed the threshold, with no taken success and no alive update in between |
| `Health.FailureNeedsUninterruptedQuarantine` | node/health/score.go:298-334 | In runs of harmless events it was also quarantined all that time |
| `Health.CheckFailsOverdue` | node/health/score.go:298-334 | A check fails exactly the known nodes whose timer is older than the timeout and not refused, and leaves all others alone |
| `Health.RevivalStartsOver` | node/health/score.go:192-246 | A success or alive update with its writes taken makes a node as good as new and touches no other |
| `Health.FirstReachesIsCeiling` | node/health/score.go:172-187 | The least number of failures that reaches the threshold is threshold over increment, rounded up |
| `Health.QuarantineAtExactCount` | node/health/score.go:161-188 | Failures alone quarantine a node at exactly that count and start its timer then |
| `Health.CountStartsOver` | node/health/score.go:161-246 | After a revival it takes the same number of failures again |
| `Responder.IsTopResponder` | node/health/monitor.go:542-576 | On a shared view with distinct ages the test holds exactly for the oldest candidates; without a view it does not hold |
| `Responder.WalkByAge` | node/health/monitor.go:555-576 | The early exits of the walk agree with that definition |
| `Responder.OnPingRequest` | node/health/monitor.go:449-463 | A node probes exactly when it is a top responder and not the requester |
| `Responder.RespondersAreTheOldest` | node/health/monitor.go:542-576 | The nodes for which the test holds are exactly the oldest active nodes other than the target, as many as allowed or as there are |
| `Responder.ProbersAreTheOldestOthers` | node/health/monitor.go:449-463 | The nodes that probe are the oldest ones without the requester, one fewer when the requester is among them |
| `Capsules.Manager.constructor` | capsule/manager.go:104-112 | Opening the database gives the state after a restart |
| `Capsules.Manager.OnTransition` | capsule/manager.go:127-158 | The new status is in memory whether or not the database takes it |
| `Capsules.Manager.Fire` | capsule/manager.go:368-377 | One transition of the machine with its stored status; refused exactly when unknown or not permitted |
| `Capsules.Manager.Create` | capsule/manager.go:180-241 | A new capsule is stored, announced and in step |
| `Capsules.Manager.Receive` | capsule/manager.go:329-362 | A known capsule is replaced without its machine; a new one gets a machine |
| `Capsules.Manager.SyncStatus` | capsule/manager.go:508-541 | A valid status is mirrored and the machine rebuilt, unless the database refuses |
| `Capsules.Manager.Update` | capsule/manager.go:270-298 | A new spec keeps the status |
| `Capsules.Manager.Delete` | capsule/manager.go:301-323 | Capsule, machine and row go together |
| `Capsules.EventKeepsSyncIff` | capsule/manager.go:127-377 | An event keeps stored statuses and machines in step if and only if it is harmless |
| `Capsules.RunStaysSyncedIff` | capsule/manager.go:180-541 | A run stays in step throughout if and only if each event is harmless where it occurs |
| `Capsules.PlainRunsStaySynced` | capsule/manager.go:180-541 | Runs of create, first-time receive with a valid status, fire, mirror, update and delete stay in step |
| `Capsules.ReceivedAgainBreaksSync` | capsule/manager.go:330-338 | A run in which receiving a known capsule leaves its machine behind |
| `Capsules.RestartLosesNothing` | capsule/manager.go:104-112 | While no database update fails, a restart at any point of a run gives back the same store and machines |
| `Capsules.FiresKeepStored` | capsule/lifecycle.go:112-126 | Transitions keep a capsule stored and in step |
| `Capsules.RunningNeedsElection` | capsule/lifecycle.go:136-195 | Between two entries to Running a capsule is Announced, Electing, Assigned and Executing, in this order |
| `Capsules.TriggersHaveOneTarget` | capsule/lifecycle.go:136-195 | Each trigger is permitted in its source statuses only and leads to one target; every failure and timeout leads back to Announced |
| `Capsules.NoDeadEnd` | capsule/lifecycle.go:136-195 | From every status some triggers lead to every status except Created |
| `Capsules.CreatedIsNeverEntered` | capsule/lifecycle.go:136-195 | No triggers lead to Created |
| `Capsules.DeletedStaysGone` | capsule/manager.go:301-323 | A deleted capsule is gone from store, machines and rows and stays gone, restarts included, until created or received again |
| `Capsules.RowsFollowWrites` | capsule/manager.go:127-377 | A refused statement leaves the rows alone, a taken one leaves the row as the store has it |
| `Capsules.SpecStays` | capsule/manager.go:127-158 | In every run transitions and mirrored statuses keep a capsule's spec and cluster |
| `Decimal.ParsersReadBack` | node/capsule_handler.go:667-698 | Both integer parsers read back every 64-bit numeral |
| `Decimal.ScanExtendsAtoi` | election/delay/strategy.go:202-211 | Where the strict parser accepts an ID, the lenient one reads the same slot |
| `Decimal.OnlyScanIsLenient` | node/capsule_handler.go:689-698 | Where something follows the digits or blanks precede them the lenient parser reads the number and the strict one fails |
| `ReplicaSlots.NextReplicaSlot` | node/capsule_handler.go:679-687 | The loop computes the slot after the highest one that parses |
| `ReplicaSlots.HighestIff` | node/capsule_handler.go:679-687 | The highest slot is the largest number an ID parses to; IDs that do not parse do not count |
| `ReplicaSlots.NextSlotIsFresh` | node/capsule_handler.go:679-687 | That slot is not in use, whatever the other IDs look like, while it fits 32 bits |
| `ReplicaSlots.FreshIffFits` | node/capsule_handler.go:667-698 | From a given highest slot the next one is free for every replica list if and only if it fits 32 bits |
| `ReplicaSlots.ReplicaTable.AssignReplica` | capsule/manager.go:464-500 | The first entry with the ID is overwritten, or a new one appended, whether or not the database takes it; an unknown capsule is refused |
| `ReplicaSlots.AssignmentIsLocal` | capsule/manager.go:464-490 | Assignment keeps IDs unique, changes no other slot, and appends exactly when the ID is new |
| `ReplicaSlots.ScaleUpAppends` | capsule/manager.go:464-490 | Assigning the next slot appends one entry, disturbs none and raises the highest slot by one |
| `Watch.IterateKeeps` | api/core/watch.go:30-62 | One producer iteration keeps the stream faithful and the client warned, whatever the client reads meanwhile |
| `Watch.WatchIsFaithful` | api/core/watch.go:26-62 | For every interleaving, delivered then queued events are an ordered subsequence of the source, every loss is accounted for, the bound holds, and a marker follows the latest loss |
| `Watch.WatchAsConfigured` | api/core/watch.go:8-13 | The same for the configured channel of 512 events |
| `Watch.KeptIffFindsRoom` | api/core/watch.go:38-59 | One iteration keeps the new event if and only if the channel has room or the client reads at a moment that makes room |
| `Watch.NewEventSurvivesIff` | api/core/watch.go:26-62 | In every run the event handled next survives its iteration under exactly that condition |
| `Watch.UnreadOverflowLosesTwo` | api/core/watch.go:38-59 | A client that reads nothing loses the first event and the one that does not fit, at every capacity |
| `Watch.WatchChannel.Discard` | api/core/watch.go:42-45 | Takes out the oldest item if there is one |
| `Watch.WatchChannel.Offer` | api/core/watch.go:47-58 | Queues an item or loses it when full |
| `Watch.WatchChannel.Produce` | api/core/watch.go:38-59 | The channel operations of one iteration refine the specified iteration |

## Left out

- Agreement on the name of the winner: losers name the first better claim they hear and ineligible nodes the first claim, so names can differ.
- Leaving a cluster or closing a listener during a round: the network model keeps the listener open until the round is over.
- Several elections at once on one network: the network model runs one election with one round per node; `ElectionManager` covers the interplay of rounds on one node.
- Clock skew between nodes and most computation time: the election runs on one clock, and apart from stamping a claim a node handles what is due without delay; the time from listening to deciding is zero.
- Float rounding: scores and waits are exact reals, as in the design.
- Responder.IsTopResponder: sorts a copy as a value; the source sorts the slice that the phonebook returned, in place.
- Capsules.Manager.Receive: the store holds capsules by value, so callers that keep and change a pointer to a stored capsule are not modelled.
- Decimal.ParsersReadBack: blanks are the ASCII ones; further Unicode spaces are not skipped.
- Health across changes of the scale band: thresholds stay fixed during a run.
- The syncer's count of connection failures and the messages it syncs: its writes may come at any time.
- Writes by the syncer or the subscriber between the reads and writes of one tracker operation: an operation of the tracker is one step.
- SQLite schema and queries, the phonebook database, metrics and snapshot stores, including eviction over the cap.
- Cryptography: signatures and hashes appear only as a validity flag and as identity of bytes.
- libp2p, GossipSub, protobuf, logging, goroutine and wait-group plumbing.
- Paginated sync, bootstrap, key rotation, container runtime, snapshot transfer, HTTP and gRPC layers, CUE configuration, CLI.
- Enum accessors, option setters, label helpers, weight merging, momentum clamping and spec defaulting.
