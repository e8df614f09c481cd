# A verified model of the cluster's consensus, and three numeric kernels

The repository runs a chat server on a cluster of machines. Its hardest code is the hand-written,
reconfigurable Multi-Paxos in `app/consensus/`: acceptors with stable storage, elections, one log per
epoch of voters, snapshots, compaction and catch-up. This project models that code as a step system
and proves what it is for, over whole runs: agreement, value choice, one chain of voter sets, state that
survives crashes. Around it stand the journal file, the leases and voter changes built on the log, and
two numeric cores: the chunked gated delta rule (a triangular solve that must equal a token-by-token
loop) and the bounded heap and draw of the sampler.

`dafny verify dfyconfig.toml` checks everything.

## How it is laid out

| modules | what they hold |
|---|---|
| Ballots, StateMachines, Messages | proposal numbers, the replicated facts, what nodes say to each other |
| Replays, Histories | the chosen log as a function: applying, advancing, replaying from the first voters |
| Ledgers, Proposals, Nodes | acceptor, campaign and leadership, one node: each handler as a function of its state |
| Clusters | the step system: deliver, lose, repeat, reorder, elect, yield, offer, resend, compact, crash, tear a write |
| Invariants, Recoveries, Steps, Voting, Counting, Elections | the inductive invariant and why each kind of step keeps it |
| Locals, Origins | a second invariant and the origin of commands: what every run keeps, whichever promises were counted |
| Duties, Leading, Campaigns | what a node owes to each message it hears, and what campaigning and leading come to over a run, said without the handlers |
| Operations, Snapshots | what each applied command does and answers, and when snapshots are taken, kept and installed, said the same way |
| Safety, Takeovers, CatchUps, Batches, Remembering, CompactionGap, Joiners, VoterChanges | the results about whole runs |
| Mail | what handling a message sends to whom, and the queue of self-sent messages run dry |
| Stores, Acceptors, Proposers, Replicas, PaxosNodes | the objects the source has, with their fields and loops, each method proved equal to the functions above |
| Journals, Codecs, FileStores, Durability, JournalRuns | the journal byte by byte, a codec for it, the object that appends to it, and what crashes leave of it, deed by deed |
| Leases | leases on the compare-and-set, with clocks and stale copies |
| Vectors, DeltaRules, DeltaChunks, DeltaKernels | the delta rule: recurrence, one chunk, both kernels |
| Heaps, Sampling | the k-th largest value and the draw |

The state machine over steps carries the safety proofs; the classes in PaxosNodes and below show that the
code's own in-place form does what those steps say (`View` of the object after a handler is the function's
node, and what it put into its outbox is, addressee by addressee, what the function sends).

The handlers, the machine, the leases and the voter changes are functions; what they are for is stated
beside them without them: as relations between the state before, the state after and what is sent
(`Duties`, `Operations.Does`, `VoterChanges.Meets`, `Leases.AcquiredIsHeld`), proved of every call or every run.

A run is *sound* when every promise a campaign counts satisfies `Clusters.CountsSound`; the first finding
below says what that is and why it is needed. Rows that say "every sound run" need it, rows that say
"every run" do not.

## What the proofs found

- **Compaction and old candidates.** `Acceptor.accept` refuses slots below its floor, `Acceptor.prepare`
  answers a candidate that asks from below it and says nothing of the votes pruned there
  (app/consensus/acceptor.py:26-41). Agreement therefore needs a condition the code does not check: a
  promise that is counted comes from an acceptor whose floor was at most the slot asked from
  (`Clusters.CountsSound`). While nothing compacts the condition holds by itself
  (`Safety.AgreementWithoutCompaction`); `CompactionGap.FloorDecides` shows it is exactly the guard that
  matters, and `CompactionGap.CompactionBreaksAgreement` is a run of three voters that decides two
  commands for one slot without it.
- **The tail of the journal.** `load` accepts a complete last line without its newline, `_open` erases it
  (app/consensus/storage.py:116-121 and 209-217). The reload and the reopened file agree if and only if the
  tail is not a complete value (`Journals.OpenKeepsWhatWasReadExactly`). Because `accept` saves nothing
  when the same vote is already known, an acknowledged vote can be lost this way
  (`Durability.TornTailLosesAVote`).
- **Leases.** The third of the lease kept back by the keeper is exactly what clock differences may be:
  with any larger one there is a run in which two nodes use a lease (`Leases.MarginIsNeeded`). The plain
  `Leases.holds` without a margin, which the status page reads, promises less.
- **Joiners without the first voters.** A node at epoch 0 that was never told the first voters holds an empty
  voter set. A voter that installs its snapshot knows no voters afterwards, answers no Prepare and does not
  recover by starting again (`Joiners.JoinerSnapshotSilencesAVoter`), until the next epoch. That happens
  exactly when the installed snapshot names no members and leads no further than epoch 0
  (`Joiners.InstallKeepsVotersExactly`). Agreement is unaffected: the invariant (`Histories.Faithful`)
  allows for it.

## Model

| member | source | states |
|---|---|---|
| Safety.Agreement | app/consensus/replica.py:72-86 | in every sound run with lost, repeated and reordered messages, crashes, torn writes, elections and compaction, two nodes never hold different commands for one (epoch, slot), now or later, and SafetyViolation is never raised |
| Safety.AgreementWithoutCompaction | app/consensus/roles.py:57-134 | the same with no side condition at all, for runs in which no snapshot interval elapses |
| Safety.ValueChoice | app/consensus/proposer.py:23-36 | in every sound run, once a majority of an epoch's voters accepted a command for a slot at a ballot, every proposal there at that ballot or above is that command |
| Locals.OneCommandPerBallot | app/consensus/acceptor.py:21-24 | in every run each (epoch, ballot, slot) carries one command, even across restarts of its leader |
| Safety.EpochChain | app/consensus/replica.py:102-111 | in every sound run two nodes that know the voters of an epoch they are in, at whatever two moments, know the same ones, and two that left an epoch recorded the same last slot for it |
| Safety.SamePlaceSameState | app/consensus/replica.py:88-116 | in every sound run two nodes that stand at one (epoch, slot), at whatever two moments, have the same machine, the same remembered results in the same order and the same stop slots |
| Locals.RepliesAreHonoured | app/consensus/acceptor.py:38-54 | in every run and at any time, also after a crash, an acceptor that promised holds the promise or has left the epoch, one that voted stores the vote or a higher one unless compacted, and no stored vote is above the stored promise |
| Locals.RestartChangesNothingApplied | app/consensus/replica.py:38-65 | in every run a restart rebuilds the very replica that was running: place, machine, results, stops and voters; one that is told first voters it did not know changes only the members of epoch 0 |
| Locals.PlaceNeverGoesBack | app/consensus/replica.py:72-96 | in every run no node ever goes back in (epoch, slot), through messages, snapshots, crashes and torn writes |
| Locals.StepLocally | app/consensus/node.py:141-203 | every enabled step, whichever promise it counts, keeps the local invariant: memory is what the disk rebuilds, replies bind their sender, a ballot proposes one command per slot |
| Locals.RunLocally | app/consensus/node.py:26-39 | so every run keeps it |
| Safety.EveryReplicaIsAFullReplay | app/consensus/replica.py:137-185 | in every sound run, through rotate, install and restart, where a node stands, its snapshots and what its disk rebuilds to are states of the one agreed log replayed from the first voters |
| Safety.StepKeeps | app/consensus/node.py:141-203 | every enabled step keeps the whole invariant, given that a promise counted in it hides nothing |
| Safety.RunKeeps | app/consensus/node.py:26-39 | every sound run keeps the invariant and the first voters |
| Safety.RunGrows | app/consensus/node.py:26-39 | in every run, from any moment to any later one, the agreed log and the sent messages only grow and the first voters and the nodes stay the same |
| Safety.WholeRunIsSound | app/consensus/snapshots.py:11-23 | a run in which no snapshot interval elapses is sound and keeps the invariant |
| Elections.PlanIsSafe | app/consensus/proposer.py:23-36 | what a majority of honest promises makes a candidate propose for a slot is the only command a lower ballot can still decide there; where nobody reports a vote, none can decide anything |
| Elections.ElectStep | app/consensus/roles.py:57-63 | starting a campaign keeps the invariant: its ballot was never used for a proposal |
| Elections.LeaderStep | app/consensus/roles.py:82-105 | taking over keeps the invariant: every proposed command is safe under the new ballot and every slot above is open |
| Elections.OfferStep | app/consensus/roles.py:98-105 | proposing a new command keeps it |
| Voting.PromiseIsHonest | app/consensus/acceptor.py:26-36 | a promise reports every vote the acceptor ever gave from the slot asked for on, above its floor |
| Counting.ProposalsFollowDecisions | app/consensus/roles.py:82-105 | every proposal at or above the ballot of a decision carries the decided command |
| Counting.OneDecision | app/consensus/proposer.py:59-69 | a slot has one decided command |
| Counting.QuorumsMeet | app/consensus/node.py:84-86 | two majorities of the same voters share a member |
| Takeovers.NoHolesOnTakeover | app/consensus/roles.py:82-93 | in every sound run, whenever a step makes a node a leader and what it knew chosen from its next slot on was decided below its ballot, every slot from there to its first free one is known chosen or in flight |
| Takeovers.SteppedIntoLeading | app/consensus/roles.py:75-94 | only the promise that completes a majority makes a leader, whatever the step |
| Takeovers.HolesExactly | app/consensus/proposer.py:29-36 | without that condition, the slots left open are exactly the unknown ones above the last reported |
| Locals.NewSlotIsUnused | app/consensus/proposer.py:42-57 | in every run a leader never hands out a slot it already proposed under its ballot |
| Leading.OfferHandsOutNext | app/consensus/proposer.py:42-57 | an offer to a leader changes nothing when its id was applied lately or proposed; otherwise the command goes to the first free slot and the next one becomes free |
| Leading.NoHolesWhileLeading | app/consensus/roles.py:98-105 | in every run, between any two moments of one leadership, every slot from the first free one of the earlier to that of the later was proposed under its ballot |
| Leading.LeadsWithoutBreak | app/consensus/roles.py:57-73 | in every run a ballot is led without a break: a leadership once lost never comes back under its ballot, crashes included |
| Leading.OfferedOnceProposedOnce | app/consensus/roles.py:102-105 | in every run an offered command is proposed exactly when its id was not applied lately and no command of that id was proposed under the leader's ballot |
| Leading.RunKeepsIds | app/consensus/proposer.py:49-52 | in every run a leader's ids are exactly those of the commands it proposed under its ballot |
| Campaigns.BallotsGoUp | app/consensus/roles.py:57-63 | in every run a campaign asks under a ballot above every one its node campaigned or led under before in the epoch, while it stayed up |
| Campaigns.RefusedAsksHigher | app/consensus/roles.py:136-140 | in every run a node whose ballot was refused is a follower, and its next campaigns in the epoch ask above the ballot that refused it |
| Campaigns.MajorityMakesLeader | app/consensus/roles.py:75-80 | in every sound run a candidate that hears a promise leads from then on exactly when the distinct nodes that promised are a majority of the epoch's voters |
| Campaigns.NewLeaderProposes | app/consensus/roles.py:82-96 | a new leader follows itself and proposes exactly the unapplied slots it does not know chosen at or below some reported one, each with what the highest-ballot report names or the no-op; its first free slot lies right above all it knows chosen or proposes |
| Duties.PrepareIsAnswered | app/consensus/roles.py:65-73 | a voter promises exactly ballots at least as high as its promise: it reports exactly its votes from the slot asked for on, stores the ballot, knows its round and gives up a lower campaign or leadership of its own; otherwise it names what it promised and changes nothing |
| Duties.AcceptIsAnswered | app/consensus/roles.py:117-122 | a voter votes exactly for slots not compacted and ballots at least as high as its promise, stores vote and promise, and follows the leader; otherwise it names what it promised and changes nothing |
| Duties.HeartbeatIsFollowed | app/consensus/roles.py:161-174 | a leader under a ballot at least as high is followed, and a lower campaign or leadership given up |
| Duties.VoteIsCounted | app/consensus/roles.py:124-134 | exactly the vote that completes the quorum decides: the command is told, known as chosen and no longer in flight; any other is only counted, once per voter |
| Duties.StrayVoteIsIgnored | app/consensus/proposer.py:59-63 | a vote under another ballot or for a slot no longer in flight changes nothing |
| Duties.NackTeaches | app/consensus/roles.py:136-140 | a refused node knows the round that refused it and is a follower if the ballot was its own |
| Duties.CampaignAsksAbove | app/consensus/roles.py:57-63 | a campaign asks every voter, once, from the first slot not applied, under a ballot of the node above every round it knows, and needs a majority |
| Duties.ResendRepeats | app/consensus/roles.py:107-115 | a slot short of a majority goes out again as it was proposed |
| Duties.CommitIsTaken | app/consensus/node.py:224-233 | a decision is recorded unless its place is known or behind, a second command for a known place is noticed, and the replica moves on exactly when its next place is told |
| Duties.NewEpochStartsOpen | app/consensus/node.py:106-115 | a node that enters an epoch leads nothing, follows nobody and follows the first leader it hears |
| Duties.InstalledEpochStartsOpen | app/consensus/snapshots.py:33-35 | the same when a snapshot of a later epoch is installed |
| Duties.OthersAreDropped | app/consensus/node.py:188-199 | messages of another epoch, and all but decisions at a node that does not vote, change nothing |
| Remembering.AppliedOncePerMemory | app/consensus/replica.py:90-96 | between two applications of one command id at least 10,000 other commands were applied |
| Remembering.StillRemembered | app/consensus/replica.py:113-119 | an applied id stays remembered, at a known place of the queue, until that many more were applied |
| Operations.ApplyDoesExactly | app/consensus/state_machine.py:37-54 | each operation has its effect and its answer and nothing else: a compare-and-set answers yes exactly when the key held what was expected and then only that key changed, a deletion exactly when something was there |
| Operations.EveryCommandTakes | app/consensus/replica.py:88-119 | along the log every command has its effect: a no-op or known id only takes its slot, an operation acts and its answer is remembered, a voter change of this epoch seals it at its slot and is answered yes, one of another epoch changes nothing and is answered no |
| Operations.OneWinner | app/consensus/lease.py:48-57 | of all compare-and-sets on a key that expect one value and put another there, with no other write of the key between them, at most one is answered yes |
| CatchUps.LogHasNoGap | app/consensus/replica.py:124-129 | between the base and where a replica stands its log has no gap, up to the command that sealed each epoch |
| CatchUps.NextIsServed | app/consensus/snapshots.py:39-47 | a node ahead always has an answer for a node behind: its next command, or a snapshot |
| CatchUps.StopIsAbove | app/consensus/replica.py:88-111 | nothing above the sealing command of an epoch is ever applied in it |
| CatchUps.AnswerMovesOn | app/consensus/snapshots.py:25-37 | every answer for the place a node stands at, whoever gave it and whenever, carries it strictly on in (epoch, slot) |
| CatchUps.CatchUpMakesProgress | app/consensus/catchup.py:39-73 | in every sound run a node behind another gets an answer for where it stands, and handling any such answer moves it strictly on |
| CatchUps.CatchUpEnds | app/consensus/catchup.py:49-66 | in every sound run, whatever happens in between, a node takes no more answers before it reaches a place some node stood at than there are agreed commands from its own place up to that one |
| Batches.BatchIsContiguous | app/consensus/replica.py:124-129 | in every run the batch a node serves for a place it applied and did not compact starts with the consecutive slots from there, as many as it applied and fit; of an epoch it left it holds nothing above the sealing command |
| Batches.RunIsTidy | app/consensus/replica.py:102-111 | in every run a stop slot is recorded only for an epoch that was left, in replicas, snapshots and messages alike |
| Joiners.InstallKeepsVotersExactly | app/consensus/replica.py:150-159 | in every sound run a node that installs a sent snapshot knows the voters of its epoch afterwards if and only if it was not left in epoch 0 by a snapshot without members |
| Joiners.JoinerSnapshotSilencesAVoter | app/consensus/node.py:198-199 | a concrete joiner's snapshot after which a voter answers no Prepare, started again or not |
| CompactionGap.CompactionBreaksAgreement | app/consensus/acceptor.py:26-41 | a concrete run, every step enabled, after which two nodes hold different commands for one slot: the condition on counted promises is needed |
| CompactionGap.FloorDecides | app/consensus/snapshots.py:11-23 | a compacted acceptor's promise hides no vote, whatever it voted, if and only if the candidate asks from its floor or above |
| CompactionGap.PromiseHidesNothingExactly | app/consensus/storage.py:32-42 | a particular pruned ledger hides nothing if and only if it had no vote between the slot asked for and the floor |
| Recoveries.SnapshotPlusSuffix | app/consensus/replica.py:137-185 | restoring a snapshot taken where part of a log led, over what the compacted log still holds, ends where the whole log leads from the start |
| Recoveries.RotationKeepsLog | app/consensus/replica.py:137-148 | a snapshot interval leaves a replica whose stored state still rebuilds to where it stands on the agreed log |
| Recoveries.InstallKeepsLog | app/consensus/replica.py:150-159 | so does installing a peer's snapshot |
| Recoveries.CommitKeepsLog | app/consensus/replica.py:72-96 | so does committing a command of the agreed log |
| Snapshots.RotatesWhenDue | app/consensus/replica.py:137-148 | a snapshot is taken exactly when an interval was applied since the last; the one before becomes the base, behind it nothing is kept and from it on everything is |
| Snapshots.InstallsWhenAhead | app/consensus/snapshots.py:25-37 | a peer's snapshot is taken in exactly when it is what its message says and lies ahead |
| Snapshots.TotalCountsCommands | app/consensus/replica.py:98-100 | the applied total counts every command along the log but those that sealed an epoch |
| Replays.AdvanceInTwoSteps | app/consensus/replica.py:88-96 | advancing over some of a log and then over all of it is advancing over all of it |
| Replays.AdvanceIgnoresThePast | app/consensus/replica.py:180-185 | dropping commands below where a replica stands changes nothing it will do |
| Histories.PlaceDeterminesState | app/consensus/replica.py:88-116 | along one log a place has one state and an epoch one voter set |
| Histories.VotersKept | app/consensus/replica.py:102-111 | a longer log keeps the voters of every epoch a shorter one opened |
| Origins.NothingUnaskedIsChosen | app/consensus/roles.py:98-105 | in every run, every command a node holds as chosen was offered to the cluster, or is the gap-filling no-op |
| VoterChanges.VotersCompose | app/consensus/voters.py:92-114 | in every sound run, with any number of concurrent requests, each epoch's voters are the previous epoch's with exactly one caller's change: everyone else keeps vote and address, and the one asked for joined or moved under the asked address or left; from non-empty first voters no epoch is without voters |
| VoterChanges.OneEpochOn | app/consensus/replica.py:102-111 | the same for one epoch of any log whose voter changes name the epoch they were built in |
| VoterChanges.RequestsMeetTheirChange | app/consensus/voters.py:36-75 | a request asks for exactly what its change means, and none is made exactly when the change is already there, nobody votes, or the last voter would leave |
| Ballots.BallotsAreOrdered | app/consensus/ballot.py:4-8 | proposal numbers are totally ordered by round, then node id |
| Ballots.FirstDifferenceDecides | app/consensus/ballot.py:4-8 | ids are ordered by their first difference, a proper prefix first |
| Ledgers.ReportCovers | app/consensus/acceptor.py:31-36 | a promise is sorted by slot and names exactly the votes at the slot asked for and above |
| Proposals.BestIsHighest | app/consensus/proposer.py:24-28 | the scan keeps, per slot, an entry with the highest ballot |
| Acceptors.Acceptor.Prepare | app/consensus/acceptor.py:26-36 | the object's new ledger, its answer and its store are those of phase 1b; nothing is held that is not stored |
| Acceptors.Acceptor.Accept | app/consensus/acceptor.py:38-49 | the same for phase 2b, with the floor and the vote already known |
| Acceptors.Acceptor.HighestRound | app/consensus/acceptor.py:21-24 | the greatest round promised or voted at |
| Acceptors.SortedVotes | app/consensus/acceptor.py:31-35 | the loop over slots builds exactly the report |
| Proposers.CampaignCount.Add | app/consensus/proposer.py:17-21 | counts senders once, replacing a repeated one's entries, and is true exactly when this promise completes the majority |
| Proposers.CampaignCount.MakePlan | app/consensus/proposer.py:23-36 | the nested loops compute the plan of the joined promises |
| Proposers.LeadershipCount.ProposeAt | app/consensus/proposer.py:49-57 | a proposed slot is in flight with no votes and the free slot is above it |
| Proposers.LeadershipCount.Count | app/consensus/proposer.py:59-69 | a vote is counted once, and the command comes back exactly when the majority completes |
| Replicas.ClusterMachine.Execute | app/consensus/state_machine.py:37-54 | each operation's new state and result |
| Replicas.Replica.constructor | app/consensus/replica.py:38-65 | a replica rebuilt from its store stands where the stored snapshot and log lead |
| Replicas.Replica.Commit | app/consensus/replica.py:72-86 | the three outcomes (known, recorded, violation), the store's and the replica's new state for each |
| Replicas.Replica.AdvanceAll | app/consensus/replica.py:88-96 | the loop applies the log as far as it is known |
| Replicas.Replica.Rotate | app/consensus/replica.py:137-148 | when a snapshot is due, what becomes base and pending, and what is dropped |
| Replicas.Replica.Install | app/consensus/replica.py:150-159 | installs exactly snapshots ahead of what is applied |
| Replicas.Replica.ChosenFrom | app/consensus/replica.py:124-129 | the loop returns the batch `FirstChosen` describes |
| Replicas.BatchIsExact | app/consensus/replica.py:124-129 | a batch is in slot order, names only chosen slots in range and leaves none out unless it is full and the slot above all of it |
| PaxosNodes.PaxosNode.constructor | app/consensus/node.py:41-72 | a process started on a store is the restarted node of the model; first voters are saved once |
| PaxosNodes.PaxosNode.BeginEpoch | app/consensus/node.py:106-115 | a new epoch starts with its stored acceptor, its floor and no role |
| PaxosNodes.PaxosNode.CommitAt | app/consensus/node.py:224-233 | committing, and entering the next epoch when the command sealed this one |
| PaxosNodes.PaxosNode.OnElection | app/consensus/roles.py:57-63 | the candidate's new state; each other voter, and nobody else, is sent its Prepare once, itself by queue |
| PaxosNodes.PaxosNode.OnPrepareMessage | app/consensus/roles.py:65-73 | stores, steps down and answers as the model's step does, the answer going to the sender alone |
| PaxosNodes.PaxosNode.OnPromiseMessage | app/consensus/roles.py:75-94 | counts, and exactly on a majority leads and sends each other voter its planned proposals in slot order |
| PaxosNodes.PaxosNode.OnOffer | app/consensus/roles.py:102-105 | an id already applied or in flight changes and sends nothing; any other gets the next free slot, proposed once to each other voter |
| PaxosNodes.PaxosNode.ResendSlot | app/consensus/roles.py:107-115 | a proposal short of a majority goes again to exactly the voters that have not accepted it |
| PaxosNodes.PaxosNode.OnAcceptMessage | app/consensus/roles.py:117-122 | stores, follows the leader and answers the sender alone |
| PaxosNodes.PaxosNode.OnAcceptedMessage | app/consensus/roles.py:124-134 | counts, and exactly on a majority commits and sends the Commit once to each other voter of the epoch it was decided in |
| PaxosNodes.PaxosNode.OnNackMessage | app/consensus/roles.py:136-140 | learns the round and gives up its own ballot |
| PaxosNodes.PaxosNode.HearLeader | app/consensus/roles.py:161-174 | follows a leader under a ballot at least as high |
| PaxosNodes.PaxosNode.OnRotate | app/consensus/node.py:159-160 | the compacted journal, acceptor and floor after a snapshot interval |
| PaxosNodes.PaxosNode.OnSnapshotMessage | app/consensus/snapshots.py:25-37 | the installed state, the rewritten journal and the epoch entered |
| PaxosNodes.PaxosNode.OnCatchUp | app/consensus/node.py:235-242 | answers exactly the batch or the snapshot, and changes nothing else |
| PaxosNodes.RepliesAreServed | app/consensus/snapshots.py:39-47 | every reply is one the model's answering step may send, and the place asked for is answered whenever it can be |
| PaxosNodes.PaxosNode.Deliver | app/consensus/node.py:188-203 | handling any of the seven messages of the model does to the object what the model's step does, and each addressee gets exactly its letters in order |
| PaxosNodes.PaxosNode.DrainOne | app/consensus/node.py:184-186 | so does handling the first message it sent to itself |
| PaxosNodes.PaxosNode.Drain | app/consensus/node.py:184-186 | the loop over the queue ends and leaves it empty, in the state and with the letters of handling message after message |
| PaxosNodes.PaxosNode.Receive | app/consensus/node.py:141-143 | a message from outside is handled, and then everything it made the node send to itself |
| Mail.DrainingIsSteps | app/consensus/node.py:184-186 | from any cluster, draining a node's queue is a run of the step system that ends in exactly the drained cluster |
| Mail.HandlingLightens | app/consensus/node.py:174-186 | handling a queued message makes the queue lighter: a Prepare gives way to a promise, a promise to proposals, a proposal to a vote, anything else to nothing |
| Mail.LettersAreSent | app/consensus/node.py:174-182 | the letters are exactly what the step sends and what the node queues for itself |
| Mail.ProposedInOrder | app/consensus/roles.py:94-96 | a new leader's proposals go out once per slot, from the lowest up |
| Journals.JournalReadsBack | app/consensus/storage.py:112-140 | whole lines, any unterminated tail, any zero padding: exactly the lines are read, and the tail only if it is a complete value |
| Journals.TornWriteIsAllOrNothing | app/consensus/storage.py:198-207 | an append cut short at any byte leaves the old facts, or the old facts and the new one once only its newline can be missing |
| Journals.RewriteLosesNothing | app/consensus/storage.py:147-173 | folding the lines a rewrite writes gives back the state it wrote |
| Journals.RewrittenInOrder | app/consensus/storage.py:147-173 | a rewritten journal says each thing the state holds exactly once, epoch by epoch, promise, votes and decisions, slot by slot |
| Journals.RewrittenJournalLoads | app/consensus/storage.py:147-176 | a rewritten journal loads as the pruned state |
| Journals.OpenKeepsWhatWasReadExactly | app/consensus/storage.py:209-217 | opening for appending keeps what was read if and only if the tail is not a complete value |
| Journals.TornOpenKeepsLines | app/consensus/storage.py:215-216 | a crash while the tail is being zeroed leaves whole lines and a tail that is not read |
| Codecs.LawfulCodec | app/consensus/storage.py:119-140 | there is a codec with every property the journal asks of one |
| FileStores.FileStore.Load | app/consensus/storage.py:112-140 | returns what the file holds, and rewrites it (to a file that loads the same) exactly when it has too many lines |
| FileStores.DistinctCountsLines | app/consensus/storage.py:143-145 | the lines a state is said to need are those a rewriting writes for its epochs, and one more |
| FileStores.FileStore.Append | app/consensus/storage.py:198-207 | after it the file holds every earlier whole line and the new one |
| FileStores.FileStore.Open | app/consensus/storage.py:209-217 | keeps the whole lines, zeroes the rest and finds the end |
| FileStores.FileStore.Rewrite | app/consensus/storage.py:147-173 | the loops write one line per fact in epoch and slot order |
| JournalRuns.EveryAnswerIsHonoured | app/consensus/storage.py:44-46 | after any sequence of first voters, Prepares, Accepts, decisions, compactions, rewritings and crashes, and with the next deed cut off at any byte of any of its lines, the state loaded from the file honours every Promise, Accepted and decision ever told, above the snapshot, and has no vote above its promise |
| JournalRuns.ActKeepsSure | app/consensus/storage.py:178-207 | each deed, done or cut, leaves a journal whose lines follow each other and bind the process to all it told |
| JournalRuns.RewrittenIsHonest | app/consensus/storage.py:147-173 | the lines a rewriting writes for a state in order follow each other as if written one by one |
| Durability.DurableBeforeReply | app/consensus/storage.py:44-46 | for any journal whose lines follow each other, whatever wrote it, a crash at any byte of the last line leaves a state that honours every earlier one above the snapshot, with no vote above its promise |
| Durability.VoteIsDurable | app/consensus/acceptor.py:38-54 | an Accepted leaves only when the journal holds the raised promise and the vote |
| Durability.PromiseIsDurable | app/consensus/acceptor.py:26-36 | a Promise leaves only when the journal holds it |
| Durability.TornTailLosesAVote | app/consensus/acceptor.py:45-46 | with a complete unterminated vote at the end, the reloaded acceptor answers Accepted without writing and the vote is gone once the journal is opened |
| Durability.SavesTheSame | app/consensus/storage.py:75-91 | every save does to the journal's state what it does to the store in memory |
| Durability.RestartFromJournal | app/consensus/storage.py:32-42 | a process started on the pruned journal stands where the full state leads, with the same acceptor above the floor |
| Leases.Exclusion | app/consensus/lease.py:41-57 | in every run with stale copies, delayed and repeated commands and clocks within a third of the lease, no two nodes use a lease at one moment |
| Leases.MarginIsNeeded | app/consensus/lease.py:116-119 | with any larger clock difference there is a run in which two nodes do |
| Leases.StepKeeps | app/consensus/lease.py:48-71 | a granted lease stays with its holder, never shorter, until it is released or past by any clock |
| Leases.AcquiredIsHeld | app/consensus/lease.py:48-57 | a node that asks on the newest copy for a lease that is free, over or its own, and whose ask is decided before anyone else writes the key, has it for one full lease and may use it exactly until two thirds have passed on its clock since it asked, if nobody writes the key again |
| Leases.OwnLeaseIsRenewed | app/consensus/lease.py:125-128 | the holder of a live lease that asks again gets a full lease from then on |
| Leases.AsksExactlyWhenItMay | app/consensus/lease.py:48-57 | a node asks exactly when its copy shows the lease free, over by its clock or its own |
| Leases.ReleasedIsFree | app/consensus/lease.py:59-71 | a node gives a lease up exactly when its copy shows it as its own; once that is decided before anyone else writes the key nobody holds it and anybody may take it |
| DeltaRules.Unrolled | app/architectures/qwen35_delta_kernels.py:43-60 | after n tokens the state is the faded start plus every key along which something was written, each faded since |
| DeltaRules.TokenCorrects | app/architectures/qwen35_delta_kernels.py:43-60 | after a token the column answers any query with what it answered before, faded, and along the key the part of the value it did not predict |
| DeltaRules.ValueIsReadBack | app/architectures/qwen35_delta_kernels.py:53-60 | a token of full strength with a key of length one leaves its very value for its key, and outputs it to a query equal to the key |
| DeltaRules.AcrossOnlyFades | app/architectures/qwen35_delta_kernels.py:53-60 | what the column answers to a query across a token's key only fades |
| DeltaChunks.InverseSolves | app/architectures/qwen35_delta_kernels.py:101-105 | the forward-substituted rows invert the triangle for every right-hand side |
| DeltaChunks.WroteSolves | app/architectures/qwen35_delta_kernels.py:53-57 | what the token loop writes solves the same triangle |
| DeltaChunks.ChunkIsSequential | app/architectures/qwen35_delta_kernels.py:105-120 | one chunk makes the same writes, outputs and state as its tokens one after the other |
| DeltaKernels.Reference | app/architectures/qwen35_delta_kernels.py:43-60 | the token loop computes the recurrence for every channel |
| DeltaKernels.Invert | app/architectures/qwen35_delta_kernels.py:101-105 | the in-place row loop computes the inverse rows |
| DeltaKernels.Chunked | app/architectures/qwen35_delta_kernels.py:63-123 | for every length, chunk size and start state, padded chunks return the recurrence's outputs and final state |
| DeltaKernels.PaddingRests | app/architectures/qwen35_delta_kernels.py:81-93 | padded tokens leave the state as the last real token left it |
| DeltaKernels.OneAnswer | app/architectures/qwen35_delta_kernels.py:72-81 | both kernels' contracts admit one answer, so their outputs and states are equal |
| Heaps.KthLargest | app/native/fused_ops_numba.py:69-99 | the root of the bounded heap is the k-th largest of any values |
| Heaps.Consider | app/native/fused_ops_numba.py:73-98 | one value keeps the heap a min-heap of the k largest seen, nothing dropped above its root, no value lost |
| Heaps.SiftDown | app/native/fused_ops_numba.py:82-98 | sinking restores the heap and keeps its values |
| Heaps.KthLargestIsUnique | app/native/fused_ops_numba.py:69-70 | at most one value is the k-th largest |
| Sampling.Sample | app/native/fused_ops_numba.py:103-133 | with top_p not cutting, the id returned is the inverse-CDF pick among the ids at or above the top-k threshold, each weighed by the exponential of its distance from the greatest of them |
| Sampling.DrawsOne | app/native/fused_ops_numba.py:126-133 | for a draw below one the pick is the single id whose share of the mass holds the target |
| Sampling.PenaltiesOnlyLower | app/native/fused_ops_numba.py:105-107 | an id not listed keeps its score; with a penalty of at least one no listed id scores above its logit, and with one above one each but a zero scores below |
| Sampling.ScoresScale | app/native/fused_ops_numba.py:108-109 | the temperature divides every score alike |
| Sampling.PassingCounts | app/native/fused_ops_numba.py:110-113 | as many ids pass the threshold as have a value at least the k-th largest |

## Left out

- Safety.Agreement: with compaction it is stated for sound runs (every counted promise satisfies `Clusters.CountsSound`), which the source does not enforce; the counterexample run shows the condition is needed.
- Safety.ValueChoice: for sound runs; the same run proposes a second command above a decision.
- Safety.EpochChain: for sound runs, since a voter change is a decided command like any other.
- Safety.SamePlaceSameState: for sound runs, since equal places need equal logs.
- Safety.EveryReplicaIsAFullReplay: for sound runs, since without agreement there is no one log to replay.
- CatchUps.CatchUpMakesProgress: for sound runs; that an answer moves its taker on needs no condition (CatchUps.AnswerMovesOn).
- CatchUps.CatchUpEnds: for sound runs, since the bound counts agreed commands.
- Takeovers.NoHolesOnTakeover: for sound runs; without the condition a counted promise may hide the slot that was decided.
- VoterChanges.VotersCompose: for sound runs, since it speaks of the one chain of epochs.
- Joiners.InstallKeepsVotersExactly: for sound runs, since it compares with the voters the agreed log names.
- Campaigns.MajorityMakesLeader: for sound runs, since it compares with the voters the agreed log names.
- Campaigns.RefusedAsksHigher: a node started again forgets the rounds it only heard of and may ask below them once more.
- Locals.RepliesAreHonoured: a vote for a slot compacted away, or of an epoch left, need not be kept.
- Durability.DurableBeforeReply: two commands voted under one ballot for one slot are told apart by Locals.OneCommandPerBallot, not here.
- JournalRuns.EveryAnswerIsHonoured: a process started again over a complete line without its newline is not among the crashes that may come before the last one; Durability.TornTailLosesAVote shows that such a one can lose an answer.
- FileStores.FileStore.Load: how a JSON line is printed and parsed is a parameter with the laws `Journals.Lawful` names, which Codecs.LawfulCodec shows can be met; only newline separates lines, which holds for the ASCII text written.
- PaxosNodes.PaxosNode.Deliver: a request for the log is answered by PaxosNodes.PaxosNode.OnCatchUp and a heartbeat heard by PaxosNodes.PaxosNode.HearLeader, which are called as methods and not as messages; `Forward` and `HeartbeatAck` are not modelled.
- PaxosNodes.PaxosNode.OnCatchUp: how often a snapshot may be sent to one peer is a parameter; a node never asks itself.
- Sampling.Sample: the nucleus cut (`top_p < 1`) and float rounding.
- DeltaKernels.Chunked: one head (heads are an independent outer dimension), real arithmetic in place of float32, and an exponential known only by exp(0) = 1 and exp(a + b) = exp(a) exp(b).
- Values of the shared config are null, text or a lease record; a lease's expiry and length count ticks of the clock.
- Timers, backoff, `QuorumWatch` and random waits: elections, stepping down, resending and answering may happen at any time.
- Heartbeats carry no content that safety uses: any ballot and sender may be heard at any time; their acknowledgements and `Forward`, pending commands and routing are left out, since any command may be offered to a leader at any time.
- Catch-up requests: any node may answer for any place at any time; which peer is asked, and when, is left out, so progress is per answer and not over time.
- Node addresses, learners and seeds: only who votes matters to safety.
- Integers are unbounded, as in Python; rounds, epochs and slots are natural numbers, ids are strings ordered as Python orders them.
- Commands whose application raises (an unknown operation, a no-op payload under an id) are not modelled.
- Real disks below "a prefix of the last write survived": fdatasync, preallocation, the rename in a rewrite is one step.
- Operator recovery (app/consensus/recovery.py): it breaks agreement on purpose.
- `VoterChanges`: the retry loop, its deadline, the address probe and the list of ids removed on purpose.
- `LeaseKeeper`: its thread and tasks; only what `holds` answers.
- HTTP delivery, signing, status, settings, models, routers, caches, GGUF files and the reply scheduler.
