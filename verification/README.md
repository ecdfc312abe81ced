# Verified model of QuePaxa consensus and its shell

A Dafny model of a QuePaxa-based replicated log: the concrete single-slot protocol with passive
recorders and active proposers, the abstract protocol it descends from, the durability shell that
lets recorders crash and restart, the discrete-event kernel that scenarios run on, and the
Chain-of-Blocks pipeline that watches for divergence. Verify everything with
`dafny verify dfyconfig.toml`.

## The concrete protocol

A slot has `n` recorders and any number of proposer instances. A recorder keeps a constant-space
register (step, first value, current and previous aggregate). A proposer runs a threshold clock of
four phases per round over majority quorums, with catch-up, retries, hedged activation and a leader
fast path at the reserved priority `H`. `Concrete.dfy` is the step system: a schedule is a sequence
of actions (a recorder handles a request, a reply is delivered, a proposer is kicked off, a hedge or
retry timer fires), the network is the set of everything ever sent, so any message may be lost,
delayed, repeated or reordered, and every priority drawn is a choice of the schedule.

The safety argument is in four layers. `Isr.dfy` relates the register to one that remembers every
step. `Facts.dfy` says what majorities of such histories establish: what was spread, first,
gathered, chosen. Every one of these facts is stable as histories grow. `Invariant.dfy` and
`Preservation.dfy` show that every request ever sent is justified by such a fact, for every action
of every schedule. `Safety.dfy` draws the theorems: Agreement, decision dominance, no panics,
fast/slow agreement, Validity, Integrity, for all `n`, all rounds and all schedules.

Agreement has two hypotheses: each proposer instance is kicked off at most once while it is
undecided (a decided one ignores kickoffs), and the fast path is uncontested: instances that take
themselves for the leader start from one value, or there are at most two recorders, so that any two
majorities are the same set. The second is weaker than the single `H` proposal the source asks for:
two different `H` proposals with the same value do no harm. How far the hypotheses can be relaxed:

- `Rivals.dfy`: for every membership and every set of proposers, all runs that start each proposer
  once agree if and only if the fast path is uncontested;
- `Tightness.dfy`: a proposer kicked off a second time while replies to its first attempt are still
  about can count those replies as support for a different proposal, and two values get decided, as
  a run of three recorders and two proposers shows. So agreement, over all memberships, tolerates
  `k` kickoffs per undecided instance if and only if `k <= 1`. The documentation of
  `Proposer::start` presents a repeated kickoff of an undecided proposer as a harmless restart of
  its attempt; the model follows the code.

`Runs.dfy` holds the steps from which those runs are built.

`ProposerNode.dfy` holds the proposer, recorder and replica as objects that update their fields in
place, each callback proved equal to the handler function that the step system uses.

`ProposerRules.dfy` states what each callback does by what goes in and what comes out: whom a step
asks and with which draws, when a phase decides, adopts or fails, which replies count, whom a retry
asks again.

Progress is the other half. `Hedging.dfy` says exactly when a hedged proposer defers, bounds its
deferrals, and lets it wait for as long as its recorder moves; `Timers.dfy` shows that an undecided
proposer always has a timer that will wake it; `Progress.dfy` that a retry answered by a majority
completes a quorum; `Solo.dfy` bounds a proposer that is the only one ever to send. `Completion.dfy`
puts them together: from every state a slot can reach, any proposer, left alone with any majority of
recorders, can decide. With fewer recorders nobody ever does (`Safety.NoMajorityNoDecision`).

## The abstract protocol

`Tcast.dfy` is the broadcast with its retry loop, pruned pending sends and retry limit, proved to
give every live replica a majority's inputs and one input common to all, and to hand out only what
the network let through, batch by batch. `Algorithm1.dfy` proves agreement, validity and integrity
of rounds of three broadcasts from the broadcast contract alone, under crash-stop;
`ClusterDriver.dfy` is the driver that runs them, which on a network that loses nothing delivers in
one round.

## Durability

`Persist.dfy` is the snapshot layout and the write-temp, sync, rename, sync-directory sequence;
`Host.dfy` is the event loop that applies a batch, persists once and then releases replies, with a
process that may die anywhere, and the refinement of a host that never crashes; `HostLaws.dfy` keeps
its slots apart and its replies in order. `CrashRestart.dfy`
simulates recorders that crash and restart by the slot without crashes, so its safety theorems carry
over; `Deployment.dfy` shows that hosts with their files, batches and many slots, around the
proposers of one slot, are such a cluster.

## Kernel and chain

`Kernel.dfy` and `KernelNode.dfy` are the event kernel. `KernelLaws.dfy` explains what it does to
every send, arrival, timer and fault by the latest commands on its own trace, and
`KernelHistory.dfy` traces every delivery to one send and every firing to one scheduling.
`ChainHash.dfy`, `Chain.dfy`, `Observer.dfy` and `Sampling.dfy` are the hash chain, its checkpoint
table, the divergence observer and the cursor that feeds it; `HashMeaning.dfy` states the hash in
plain arithmetic and `ObserverMeaning.dfy` the observer's counters and logs by its whole history.

## Modelling choices

Values are integers, standing for any totally ordered type. Steps and slots are unbounded naturals
(the design assumes 64 bits never overflow); priorities, hashes, ticks and command fields keep their
widths. Timer ids are a datatype, so a retry timer names its step directly. Randomness, schedulers,
network deliveries, payload codecs and the operations a node callback asks for are parameters. A
failed `expect` or `assert` is an explicit failure outcome. Replies are matched to the proposer
instance that asked, as for a driver that builds one instance per slot and attempt.

## Model

| member | source | states |
|---|---|---|
| `Proposals.Best` | crates/consensus/src/proposal.rs:80-82 | the best of a set is in it and no member is above it; there is none exactly for the empty set |
| `Proposals.BestMeaning` | crates/consensus/src/proposal.rs:62-82 | the best has the greatest priority, among those the greatest origin, among those the greatest value |
| `Proposals.Max` | crates/consensus/src/proposal.rs:62-70 | the order is total: of two proposals one bounds both |
| `Proposals.BestSqueeze` | crates/consensus/src/algorithm.rs:257-300 | nested sets whose inner and outer bests coincide have that best in between, which is what makes a decision shared |
| `Isr.Cell.RecordCall` | crates/consensus/src/isr.rs:104-126 | one in-place `record` is the register function applied to the old state, and the summary is read off the new state |
| `Isr.RecordRefines` | crates/consensus/src/isr.rs:104-126 | a `record` on the four-field register matches one on a register that remembers every step |
| `Isr.RememberExtends` | crates/consensus/src/isr.rs:104-126 | first values are never rewritten, aggregates only grow, and steps left behind are frozen |
| `Isr.ConstantSpaceRefinesFullHistory` | crates/consensus/src/isr.rs:69-126 | after any calls with steps from 1 up, the summary is the largest step seen, the first value accepted there and the maximum accepted one step earlier |
| `Isr.ChronicleMeaning` | crates/consensus/src/isr.rs:69-126 | for every step, the remembered first value and maximum are those of the calls not overtaken when they arrived |
| `Isr.StepsNeverDecrease` | crates/consensus/src/isr.rs:104-126 | whatever is recorded later, the reported step never goes back |
| `Recorders.Recorder.Handle` | crates/consensus/src/recorder.rs:41-50 | the reply echoes slot and requested step and carries the summary of the register after recording |
| `Proposer.FastPathValue` | crates/consensus/src/proposer.rs:464-480 | the fast-path test succeeds exactly when all replies name one and the same first proposal at priority `H`, and yields its value |
| `Proposer.FurthestReply` | crates/consensus/src/proposer.rs:951-966 | the reply caught up to is the one at the greatest step, ties going to the greater recorder id |
| `ProposerNode.Proposer.BeginStep` | crates/consensus/src/proposer.rs:785-828 | in place: every recorder is asked once; in a phase 0 that is not the leader's first step the k-th request carries the k-th output of the generator from where it stood, and n outputs are taken |
| `ProposerRules.QuorumIsLeastMajority` | crates/consensus/src/proposer.rs:679-681 | the quorum is the least number that is more than half of the recorders |
| `ProposerRules.BeginAsksEveryone` | crates/consensus/src/proposer.rs:785-828 | beginning a step sends one request to each recorder in id order, remembers them, forgets replies and retries, and arms the retry timer of the step, 20 ticks ahead |
| `ProposerRules.BeginDrawsForEach` | crates/consensus/src/proposer.rs:797-820 | each recorder gets a draw of its own, and exactly one is taken per recorder |
| `ProposerRules.BeginWithoutDraws` | crates/consensus/src/proposer.rs:797-823 | the leader's first step sends the reserved priority, other phases the template, and neither draws |
| `ProposerRules.PhaseZeroRule` | crates/consensus/src/proposer.rs:977-991 | phase 0 decides exactly on a uniform `H` quorum, else adopts the best first value named, and fails exactly when none is |
| `ProposerRules.PhaseTwoRule` | crates/consensus/src/proposer.rs:993-1006 | phase 2 decides exactly when the template is the best of what was gathered |
| `ProposerRules.PhaseThreeRule` | crates/consensus/src/proposer.rs:1007-1021 | phase 3 adopts the best gathered and fails exactly when nothing was |
| `ProposerRules.AdvanceRule` | crates/consensus/src/proposer.rs:943-972 | a quorum at the proposer's step ends in a decision or begins the next step |
| `ProposerRules.CatchUpRule` | crates/consensus/src/proposer.rs:951-972 | any other quorum makes it begin the step of the furthest reply with that reply's first value, or fails |
| `ProposerRules.FirstReplyCounts` | crates/consensus/src/proposer.rs:851-877 | the first reply of a recorder at this step counts, a further one changes nothing, and a full quorum is processed at once |
| `ProposerRules.StartRule` | crates/consensus/src/proposer.rs:739-750 | a kickoff takes an undecided proposer to step 4, and waits out its activation delay before anything is sent |
| `ProposerRules.HedgeRule` | crates/consensus/src/proposer.rs:757-780 | a hedge check defers exactly on a local step that is ahead and new, and looks again 20 ticks later |
| `ProposerRules.RetryAsksTheSilent` | crates/consensus/src/proposer.rs:897-937 | a retry short of a quorum sends each recorder without a reply, once and in id order, exactly what it was sent, and arms the next |
| `ProposerRules.RetryIgnored` | crates/consensus/src/proposer.rs:897-912 | any other retry timer does nothing |
| `ProposerRules.BackoffDoubles` | crates/consensus/src/proposer.rs:341-349 | the retry delay starts at 20 ticks, doubles six times, and stays |
| `Progress.EveryDrawIsPossible` | crates/consensus/src/proposer.rs:797-820 | for every vector of priorities there is a kickoff, and a hedge check, after which each recorder has been asked with its own |
| `Progress.NextRoundAsksAsDrawn` | crates/consensus/src/proposer.rs:797-820 | and so for every later round that a quorum of phase 3 begins |
| `Progress.SecondReplyChangesNothing` | crates/consensus/src/proposer.rs:851-877 | on every run, a second reply from a recorder heard at this step leaves the whole system as it was |
| `Progress.AnsweredRetryCompletes` | crates/consensus/src/proposer.rs:897-937 | from any reachable state, if some majority handles what a retry resends and their replies arrive, the proposer decides, or begins a later step and asks every recorder for it |
| `Completion.AnyoneCanFinish` | docs/02-properties.md:105-124 | obstruction freedom: from every reachable state, whatever was lost or is still in flight, each proposer has a way to a decision in which nobody else acts and only the recorders of a majority of its choice answer, for every hedging delay |
| `Completion.FromAsked` | crates/consensus/src/proposer.rs:943-1021 | from any step just begun, a majority that answers brings the proposer to a decision |
| `Completion.LastRound` | crates/consensus/src/proposer.rs:977-1021 | from a phase 0 past the first round, with a majority one step behind, three exchanges decide the proposer's own value |
| `Completion.OneExchange` | crates/consensus/src/proposer.rs:943-972 | an exchange with a majority decides or begins a later step that none of the majority is past: the next one, with the majority at this one, if none of them was ahead |
| `Completion.WaitingIsArmed` | crates/consensus/src/proposer.rs:739-780 | on every run, a proposer that was kicked off, has not decided and is not active has its hedge timer armed |
| `Timers.NeverAsleep` | crates/consensus/src/proposer.rs:739-937 | a proposer that was kicked off and has not decided always has its hedge timer, or once active the retry timer of its current step, armed |
| `ProposerNode.Proposer.ProcessPhase` | crates/consensus/src/proposer.rs:977-1021 | in place: the four phase rules; failure exactly when an `expect` would fail |
| `ProposerNode.Proposer.ProcessQuorum` | crates/consensus/src/proposer.rs:943-972 | in place: all-at-step processing or catch-up, with its panics |
| `ProposerNode.Proposer.OnResponse` | crates/consensus/src/proposer.rs:851-877 | in place: stale, foreign and post-decision replies are ignored; the first reply of a recorder counts; a quorum is processed |
| `ProposerNode.Proposer.Start` | crates/consensus/src/proposer.rs:739-750 | in place: a kickoff rewinds an undecided proposer to step 4 and activates or hedges it |
| `ProposerNode.Proposer.MaybeActivateAfterHedge` | crates/consensus/src/proposer.rs:757-780 | in place: a hedge check defers on fresh local progress and activates otherwise |
| `ProposerNode.Proposer.RetryTimer` | crates/consensus/src/proposer.rs:897-937 | in place: resends what was sent to recorders that have not replied, and backs off |
| `ProposerNode.Proposer.OnTimer` | crates/consensus/src/proposer.rs:880-937 | in place: timer dispatch |
| `ProposerNode.Ctx.DrawPriority` | crates/consensus/src/proposer.rs:1027-1029 | a draw lies in `1..H`, `H` excluded, and takes the next output of the generator |
| `ProposerNode.ReplicaNode.OnMessage` | crates/consensus/src/concrete.rs:82-102 | requests go to the recorder and are answered to their sender, replies go to the proposer, and neither role touches the other |
| `ProposerNode.ReplicaNode.OnRequest` | crates/consensus/src/concrete.rs:82-96 | the published local step is the step the recorder just answered with |
| `ProposerNode.ReplicaNode.OnTimer` | crates/consensus/src/concrete.rs:104-106 | timers go to the proposer, whose hedge reads the cell its own recorder writes |
| `Safety.AgreementHolds` | crates/consensus/src/proposer.rs:851-1021 | Agreement: for every n, every set of proposers each kicked off at most once while undecided, leaders starting from one value (or at most two recorders), every draw and every schedule with loss, delay, duplication and reordering, no two decisions differ |
| `Safety.BuiltClustersAreSafe` | crates/consensus/src/concrete.rs:186-262 | clusters as the constructors build them, with any leader and any delays, are safe and valid under every such schedule |
| `Safety.DecisionDominates` | crates/consensus/src/proposer.rs:943-1021 | once a proposer decides v in a round, every proposal ever sent in a later round carries v, including those sent before the decision |
| `Safety.NeverPanics` | crates/consensus/src/proposer.rs:880-1021 | no `expect` in `process_quorum`, `process_phase` or the retry handler can fail on any run |
| `Safety.SpreadIsGathered` | crates/consensus/src/proposer.rs:80-120 | what is sent in phase 2 or 3 was folded in by a majority one step before, so any majority at that step reports something at least as good |
| `Safety.FastPathFixesTheSlot` | crates/consensus/src/proposer.rs:122-160 | once some majority passes the fast-path test, every proposal sent at step 5 or later carries its value |
| `Safety.FastDecisionsNeverDisagree` | crates/consensus/src/proposer.rs:436-452 | even with several `H` proposals, no two majorities pass the fast-path test with different values |
| `Safety.TopIsLeaders` | crates/consensus/src/proposer.rs:387-396 | every `H` proposal in any request, reply or recorder register is a leader's own round-1 proposal |
| `Safety.Validity` | crates/consensus/src/proposer.rs:785-1021 | every value in any message, any recorder register and any proposer (template, decision, what it sent, replies it holds) is some proposer's input |
| `Safety.HeldWasSent` | crates/consensus/src/isr.rs:104-126 | whatever a message or a register holds was sent in some request |
| `Safety.TemplatesAreInputs` | crates/consensus/src/proposer.rs:943-1021 | every proposer's template carries some proposer's input, catch-up included |
| `Safety.DecidedForGood` | crates/consensus/src/proposer.rs:851-857 | Integrity: a decision never changes, repeated kickoffs included |
| `Safety.DecidedIsInert` | crates/consensus/src/proposer.rs:718-738 | a decided proposer ignores everything: its state stays and it sends nothing |
| `Safety.NoMajorityNoDecision` | crates/consensus/src/concrete.rs:508-524 | if fewer than a majority of recorders ever handle anything, nobody decides |
| `Preservation.Reachable` | crates/consensus/src/proposer.rs:851-1021 | the inductive invariant holds in every reachable state |
| `Preservation.PhaseSound` | crates/consensus/src/proposer.rs:977-1021 | each phase of an all-at-step quorum leaves a justified next step or decides a value that a majority warrants |
| `Preservation.CatchUpKeepsInv` | crates/consensus/src/proposer.rs:943-972 | catching up adopts a proposal that was really sent for the step caught up to |
| `Preservation.RetryKeepsInv` | crates/consensus/src/proposer.rs:897-937 | retries only repeat what was already sent and always find it |
| `QuorumFacts.GatherIsNeverEmpty` | crates/consensus/src/proposer.rs:86-113 | a quorum in phase 2 or 3 gathers something at least as good as what its proposer sent |
| `QuorumFacts.PhaseTwoIsChoice` | crates/consensus/src/proposer.rs:977-1021 | the phase-2 test passes only for a proposal that a majority folded in and nothing gathered beats |
| `QuorumFacts.FastPathIsChoice` | crates/consensus/src/proposer.rs:464-480 | the fast path fires only at step 4, on a proposal that a majority recorded first |
| `QuorumFacts.CatchUpTarget` | crates/consensus/src/proposer.rs:943-972 | a quorum that is not all at the proposer's step has a reply that is ahead and names a proposal |
| `Facts.ChoiceDominates` | crates/consensus/src/proposer.rs:54-116 | after a choice, everything sent two steps on and later carries the chosen value |
| `Facts.FastDominates` | crates/consensus/src/proposer.rs:122-160 | after a fast-path choice, everything sent past step 4 carries its value |
| `Facts.GatherAfterChoice` | crates/consensus/src/proposer.rs:104-116 | a phase 3 that follows a choice gathers exactly the chosen proposal |
| `Facts.ChosenIsTop` | crates/consensus/src/proposer.rs:104-116 | nothing sent at a phase-2 step beats the proposal chosen there |
| `Rivals.AgreementIffUncontested` | crates/consensus/tests/two_h_proposals.rs:1-30 | for every membership, every set of proposers and every hedging: all runs that start each proposer once agree if and only if those that take themselves for the leader start from one value, or there are at most two recorders |
| `Rivals.RivalsDisagree` | crates/consensus/tests/two_h_proposals.rs:6-22 | with n >= 3 recorders, two leaders with different values: a run in which the lesser is decided on the fast path and the greater in phase 2 |
| `Tightness.OneKickIsTheLimit` | crates/consensus/src/proposer.rs:705-738 | agreement tolerates k kickoffs of each proposer while it is undecided if and only if k is at most 1 |
| `Tightness.SecondKickDisagrees` | crates/consensus/src/proposer.rs:739-750 | a run in which a second kickoff of an active proposer, met by lingering replies to its first attempt, leads to two decisions |
| `Solo.SoloDecidesOwnInput` | crates/consensus/src/proposer.rs:785-1006 | if proposer a is the only one that ever sends, whatever others exist, it never passes step 6 and decides only its own input: at step 4 as leader, at step 6 otherwise |
| `Solo.SoloProgress` | crates/consensus/src/proposer.rs:785-1006 | each quorum the only sender completes decides (the first for the leader, the third otherwise) or moves it exactly one step |
| `Solo.PassiveNeverSent` | crates/consensus/src/proposer.rs:739-784 | proposers that have not activated have sent nothing, so the only active one is the only sender |
| `Hedging.HedgingIsBounded` | crates/consensus/src/proposer.rs:757-780 | every deferral is paid for by a step of the co-located recorder, the timer fires at most once more than it defers, and a waiting proposer has it armed |
| `Hedging.DefersExactlyOnProgress` | crates/consensus/src/proposer.rs:757-780 | a hedge check leaves the proposer waiting if and only if its recorder is past step 4 and at another step than at the previous check |
| `Hedging.WaitsOutProgress` | crates/consensus/src/proposer.rs:757-780 | while the recorder moves between every two checks the proposer stays inactive and every firing is a deferral, however many |
| `Hedging.ActivatedForGood` | crates/consensus/src/proposer.rs:757-780 | an active proposer stays active and is never hedged again |
| `Tcast.Broadcast` | crates/consensus/src/tcast.rs:129-229 | the broadcast: on return R and B keep the contract, B is the least live replica's input, and every member of R is an input of its owner or of a sender whose message got through; it fails whenever the least live replica never gets through to some other, and succeeds under eventual delivery |
| `Tcast.Disseminate` | crates/consensus/src/tcast.rs:168-207 | the retry loop with pruning: batch by batch, each receiver gains exactly the senders it still wants that the network lets through; it goes on exactly while something is wanted and gives up exactly after 500 batches |
| `Tcast.RunBatch` | crates/consensus/src/tcast.rs:197-206 | after a batch a sender is in a mailbox if and only if it was before, or its message is both pending and let through |
| `Tcast.OnlyWhatGotThrough` | crates/consensus/src/tcast.rs:168-207 | a sender found in a mailbox after k batches was let through in one of them |
| `Tcast.SourceMustReach` | crates/consensus/src/tcast.rs:168-207 | a receiver the reliable source never reaches keeps the broadcast from finishing |
| `Tcast.LosslessHearsAll` | crates/consensus/src/tcast.rs:168-207 | on a network that loses nothing everyone hears everyone in at most one batch |
| `Tcast.FirstDeliveryWins` | crates/consensus/src/node.rs:79-89 | after any deliveries a mailbox holds what it held and, for every other sender, its first delivery |
| `Tcast.BroadcastDelivers` | crates/consensus/src/tcast.rs:4-22 | with nothing pending every mailbox holds a majority's whole inputs and the reliable source's, despite pruning |
| `Algorithm1.Crux` | crates/consensus/src/algorithm.rs:236-276 | in every round every universal set lies in every common set, which lies in every existent set, and none is empty |
| `Algorithm1.DetectionIsShared` | crates/consensus/src/algorithm.rs:278-299 | a replica that sees consensus sees what every live replica's common set says |
| `Algorithm1.AbstractAgreement` | crates/consensus/src/algorithm.rs:197-300 | from the broadcast contract alone, even with a different B per receiver: over any rounds and crashes no two replicas deliver different values |
| `Algorithm1.NextKeepsSafe` | crates/consensus/src/algorithm.rs:197-300 | after a delivery all live replicas hold the delivered value, and every event keeps it so |
| `Algorithm1.AbstractValidity` | crates/consensus/src/algorithm.rs:197-300 | every value held or delivered is an initial value |
| `Algorithm1.AbstractIntegrity` | crates/consensus/src/algorithm.rs:38-42 | a delivered value stays |
| `Algorithm1.RoundEqualises` | crates/consensus/src/algorithm.rs:236-255 | in the realisation with one shared B, a single completed round leaves all live replicas with one value |
| `Algorithm1.UpdatedMeaning` | crates/consensus/src/algorithm.rs:278-300 | after a round a replica holds the value of the greatest common proposal, and has delivered it if it had none and the greatest existent proposal is the greatest universal one |
| `ClusterDriver.Cluster.Exchange` | crates/consensus/src/algorithm.rs:225-255 | the three broadcasts of a round make a round of the abstract protocol with one shared B |
| `ClusterDriver.Cluster.RunRound` | crates/consensus/src/algorithm.rs:197-300 | the driver's round in place: every live replica proposes its value with its own draw; it is a step of the abstract relation, reports exactly the new deliverers, and fails, changing no replica, only as its broadcasts do; if the network loses nothing, all live replicas deliver the value of the greatest draw at once |
| `ClusterDriver.LosslessRound` | crates/consensus/src/algorithm.rs:197-300 | when every broadcast hears everyone, one round ends with all live replicas holding and having delivered the winner's value |
| `ClusterDriver.Cluster.Conclude` | crates/consensus/src/algorithm.rs:278-300 | the per-replica update loop: every replica live in the round is updated, no other, and `best` is never asked of an empty set |
| `ClusterDriver.Cluster.RunSlot` | crates/consensus/src/algorithm.rs:304-311 | rounds run until all live replicas have delivered, not one further, or the limit is reached; without losses one round is enough |
| `ClusterDriver.Cluster.CrashOne` | crates/consensus/src/algorithm.rs:126-129 | a crash only removes the replica from the live set |
| `Persist.DecodeEncode` | crates/net/src/persist.rs:173-218 | decoding undoes encoding, given a payload codec that round-trips |
| `Persist.DecodeAccepts` | crates/net/src/persist.rs:189-218 | decoding accepts exactly the magic, version 1 in little-endian order, and a payload the codec reads |
| `Persist.DecodeRejects` | crates/net/src/persist.rs:189-218 | each error is reported exactly for its own inputs: under six bytes, other magic, another version with the one found, an unreadable payload, in this order |
| `Persist.HeaderBytes` | crates/net/src/persist.rs:173-187 | a snapshot is the bytes 51 53 44 31 01 00 and the payload |
| `Persist.AttemptLeaves` | crates/net/src/persist.rs:524-595 | only a rename touches the snapshot; short of it the staging file holds as many of the new bytes as were written |
| `Persist.Store.WriteBytesBlocking` | crates/net/src/persist.rs:524-595 | the write sequence in place: files, counters and one-shot fault end as the injected fault point says, and it succeeds exactly when no fault strikes |
| `Persist.Store.Save` | crates/net/src/persist.rs:483-486 | a save encodes and writes |
| `Persist.Store.Load` | crates/net/src/persist.rs:460-467 | loading reads the snapshot path only, and reports a bad header |
| `Persist.SnapshotAtomicity` | crates/net/src/persist.rs:43-64 | however a series of writes was cut off, loading yields exactly the latest snapshot renamed into place |
| `Persist.FaultStrikesOnce` | crates/net/src/persist.rs:254-340 | the injected fault ends write number `skip` and no other, and the counters say so |
| `Host.Node.RunBatch` | crates/net/src/driver.rs:534-632 | one turn of the loop: at most 64 events are applied, one write covers them if a message was among them, and only then are their replies released; on a failed write nothing is |
| `Host.Node.Dispatch` | crates/net/src/driver.rs:544-574 | an event updates the recorder of its slot and buffers the reply |
| `Host.Node.FlushOutbound` | crates/net/src/ctx.rs:141-175 | flushing releases the buffered sends in order and empties the buffer |
| `HostLaws.SlotsApart` | crates/net/src/driver.rs:544-574 | a slot has a register exactly if it was asked about, and it is what that slot's requests alone make it |
| `HostLaws.RepliesInOrder` | crates/net/src/driver.rs:544-574 | one reply per request, in order, to whoever asked, reporting its slot after it and all before it |
| `Host.CrashRestartRefines` | crates/net/src/driver.rs:534-632 | over any lives cut off anywhere, the released replies are some of those a never-crashing host gives to some of the requests in order, a restart is never refused its snapshot, and it starts from what that host holds |
| `Host.TurnExplained` | crates/net/src/driver.rs:592-632 | one batch, ended at any point, keeps the never-crashing explanation |
| `CrashRestart.ClusterRefinesSlot` | crates/net/src/driver.rs:534-632 | a whole cluster of crashing recorders is matched by a schedule of the slot without crashes that sent everything the cluster released |
| `CrashRestart.CrashRestartIsSafe` | crates/net/src/driver.rs:534-632 | so agreement, validity and absence of panics survive recorders that crash and restart |
| `Deployment.TurnIsMoves` | crates/net/src/driver.rs:534-632 | one turn of a host, over all its slots and ended anywhere, is a few moves of the cluster at the slot: same register on disk and in memory, same replies released |
| `Deployment.SiteRefinesCluster` | crates/net/src/driver.rs:534-632 | any run of n such hosts and the slot's proposers shows what some run of the crash-restart cluster shows |
| `Deployment.SiteIsSafe` | crates/net/src/driver.rs:534-632 | so proposers served by hosts that batch, persist, release and may be cut off anywhere agree, decide only inputs, and never fail an `expect` |
| `ChainHash.MixPermutes` | crates/chain/src/lib.rs:94-99 | the finalizer is a permutation of the 64-bit words |
| `ChainHash.Fnv1a` | crates/chain/src/lib.rs:81-88 | the byte loop computes the hash |
| `HashMeaning.MixMeaning` | crates/chain/src/lib.rs:94-99 | the finalizer with its shifts and multipliers as numbers |
| `HashMeaning.FnvMeaning` | crates/chain/src/lib.rs:81-88 | each byte is folded in by exclusive or and the result multiplied by the prime modulo 2^64 |
| `HashMeaning.XorDiffers` | crates/chain/src/lib.rs:81-99 | a binary digit of the exclusive or is one exactly where the digits differ |
| `HashMeaning.ShiftIsDivision` | crates/chain/src/lib.rs:94-99 | shifting right is dividing by a power of two |
| `HashMeaning.ToWordMeaning` | crates/chain/src/lib.rs:101-131 | a signed value is stored as the word congruent to it modulo 2^64 |
| `HashMeaning.DigestMeaning` | crates/chain/src/lib.rs:132-144 | digests and links are the finalized hashes, from the offset basis, of the command's bytes and of the head's eight bytes and the command's |
| `HashMeaning.EncodeLayout` | crates/chain/src/lib.rs:101-131 | which byte of the encoding holds which byte of which field |
| `ChainHash.FnvInjective` | crates/chain/src/lib.rs:81-88 | over fixed bytes the hash is injective in its accumulator |
| `ChainHash.FnvComposes` | crates/chain/src/lib.rs:81-88 | hashing a concatenation is hashing its parts in turn |
| `ChainHash.EncodeInjective` | crates/chain/src/lib.rs:101-131 | no two commands share an encoding |
| `ChainHash.ParseEncode` | crates/chain/src/lib.rs:101-131 | an encoding can be read back |
| `ChainHash.ExtendMeaning` | crates/chain/src/lib.rs:140-144 | a link hashes the old head's bytes and the command's; for one command it tells heads apart exactly when their hashes do |
| `Chain.Head.Apply` | crates/chain/src/lib.rs:168-177 | applying advances count and hash and reports the transition |
| `Chain.ChainMeaning` | crates/chain/src/lib.rs:140-170 | a chain starts at height 0 with the offset basis; each command adds one to the height and hashes the old hash's eight bytes and the command's bytes |
| `Chain.Prefixes` | crates/chain/src/lib.rs:198-207 | the k-th prefix state is the chain over the first k commands |
| `Chain.ChainCheckpoints.Record` | crates/net/src/chain.rs:167-175 | recording drops the oldest of 256 checkpoints and says so |
| `Chain.ChainFolder.Fold` | crates/net/src/chain.rs:336-344 | folding in arbitrary batches gives the chain over the whole log and the table a fresh fold of the whole log would publish |
| `Chain.PublishedMeaning` | crates/net/src/chain.rs:107-178 | every published checkpoint is the chain over the prefix it names; the table is the newest of all crossed, up to 256; `truncated` holds iff one was dropped |
| `Chain.CheckpointMeaning` | crates/net/src/chain.rs:336-344 | the i-th checkpoint sits at the (i+1)-th multiple of the spacing |
| `Observer.Observer.Observe` | crates/conformance/src/observer.rs:185-252 | one sample in place; it fails exactly when a transition must be logged and the cap is zero |
| `Observer.Observer.Stalls` | crates/conformance/src/observer.rs:323-338 | stalls are exactly the replicas behind the highest one that have not moved for more than the budget, each with its state, last progress, now and the frontier |
| `Observer.ViewsMeaning` | crates/conformance/src/observer.rs:216-252 | what is kept of a replica is its first sample at the highest height it has shown |
| `Observer.DivergencesMeaning` | crates/conformance/src/observer.rs:185-215 | divergences are filed once per height and replica, exactly for replicas that conflict with the first sample there, dated by the earliest conflict |
| `Observer.ObserverIsExact` | crates/conformance/src/observer.rs:185-262 | if no replica contradicts itself, divergences are reported iff two replicas differ at one height, in any order of arrival |
| `ObserverMeaning.CountsMeaning` | crates/conformance/src/observer.rs:185-215 | `samples` counts all samples and `comparisons` exactly those whose height another replica had shown first |
| `ObserverMeaning.LogMeaning` | crates/conformance/src/observer.rs:216-252 | a replica's log is its single steps up that came with a digest, the newest up to the cap, and says whether older ones were dropped; it was first seen at its first sample |
| `Observer.SilentIff` | crates/conformance/src/observer.rs:185-215 | whether or not replicas contradict themselves, a height goes unreported if and only if every sample there of a replica other than the first one's carries the first one's hash |
| `Observer.SelfContradictionHides` | crates/conformance/src/observer.rs:185-215 | so a replica that contradicts itself can hide a real conflict: a run in which it does |
| `Observer.HealthyIsQuiet` | crates/conformance/src/observer.rs:185-262 | replicas whose logs are prefixes of one another are never reported |
| `Sampling.EmittedMeaning` | crates/conformance/src/source.rs:329-357 | a poll puts out checkpoints above the cursor, climbing, none left out that tops all before it, and the frontier last, all under the replica's id and the time of the poll; the cursor ends at the highest |
| `Sampling.SamplesFromChain` | crates/conformance/src/source.rs:329-357 | a poll yields the checkpoints past the cursor, then the frontier, and moves the cursor |
| `Sampling.PollEmitsNew` | crates/conformance/src/source.rs:329-357 | a poll yields exactly the newest part of the checkpoints crossed since the last |
| `Sampling.PolledOnce` | crates/conformance/src/source.rs:329-357 | across polls nothing is emitted twice and everything emitted was crossed |
| `Sampling.PolledAll` | crates/conformance/src/source.rs:329-357 | when polls keep up with the table, every checkpoint is emitted exactly once, in order |
| `Sampling.PollsKeepQuiet` | crates/conformance/src/source.rs:329-357 | polling any replicas in any order and as often as one likes, while their logs are prefixes of one log, never makes the observer report anything |
| `Sampling.PolledIsHealthy` | crates/conformance/src/source.rs:329-357 | one poll yields only states of the log's own chain |
| `Kernel.MessagesConserved` | crates/sim/src/kernel.rs:75-153 | each message sent is in flight with exactly one arrival queued, or ended exactly once, or arrived at no node, and never two of these |
| `Kernel.DeliveriesHonest` | crates/sim/src/kernel.rs:414-463 | nothing is delivered to a crashed node or across a partition in force, and no drop is blamed on a fault that is not |
| `KernelLaws.PartitionLaw` | crates/sim/src/fault.rs:63-80 | if the last network command before an entry is `Partition(g, h)`, it is no delivery between g and h in either direction, and a drop as partitioned is between them |
| `KernelLaws.HealedLaw` | crates/sim/src/fault.rs:63-80 | with no partition yet or the last one healed, nothing is dropped as partitioned |
| `KernelLaws.CrashLaw` | crates/sim/src/fault.rs:50-61 | by the last crash or restart of a node: a crashed node hears nothing and its timers do not fire, others lose no timer, and a drop blamed on a crash has a crashed end |
| `KernelLaws.SendFate` | crates/sim/src/kernel.rs:75-153 | from the last commands about its ends alone: a send is recorded, then dropped for a crash, a partition or the scheduler, in this order, or takes flight and arrives after the delay times the slower end's factor, at least a tick, saturating |
| `KernelLaws.ArrivalFate` | crates/sim/src/kernel.rs:414-474 | from the last commands alone: an arrival is dropped for a crashed receiver, else for a partition, else handed to its node, else unclaimed; the sender's later crash does not matter |
| `KernelLaws.TimerFate` | crates/sim/src/kernel.rs:388-412 | a due timer is dropped for a crashed node, fires at a registered one, and is lost otherwise |
| `KernelLaws.FaultFate` | crates/sim/src/kernel.rs:291-357 | a due fault is recorded at its time, a cleared slow-down as factor 1, and only a registered node that restarts runs a callback |
| `KernelLaws.PlanFate` | crates/sim/src/kernel.rs:285-289 | a fault can be planned from now on, and not for the past |
| `KernelLaws.CallbackInOrder` | crates/sim/src/kernel.rs:405-411 | a callback's requests are all recorded, once each, in order, at the callback's time, with the fire time of each timer |
| `KernelLaws.EarliestMeaning` | crates/sim/src/queue.rs:45-69 | the next event is the one of least time, and of those the first scheduled |
| `KernelLaws.DrainedByTime` | crates/sim/src/queue.rs:45-69 | the queue empties in order of time, then of scheduling, each event once |
| `KernelHistory.EndsAsSent` | crates/sim/src/kernel.rs:75-153 | every delivery and drop names the ends its message was sent between |
| `KernelHistory.TimersKeepTime` | crates/sim/src/kernel.rs:156-168 | a timer fires or is dropped at most once, exactly at the time it was set for, and is queued until then |
| `Kernel.TimeIsMonotone` | crates/sim/src/kernel.rs:368-386 | time never runs back nor past a queued event, and the trace is in time order |
| `Kernel.DrainedInOrder` | crates/sim/src/queue.rs:45-69 | popping yields every event once, in strict (time, sequence) order, whatever the order of pushing |
| `Kernel.TurnKeepsInv` | crates/sim/src/kernel.rs:368-463 | one iteration of the event loop keeps the account of messages, the queue and the trace |
| `KernelNode.KernelObject.SendMessage` | crates/sim/src/kernel.rs:75-153 | a send in place: drops by crash, partition and scheduler, and the delay with its slow-down |
| `KernelNode.KernelObject.AddTimer` | crates/sim/src/kernel.rs:156-167 | a timer in place, at least one tick ahead |
| `KernelNode.KernelObject.ApplyFaultCommand` | crates/sim/src/kernel.rs:291-357 | a fault in place; a registered node that restarts runs its callback |
| `KernelNode.KernelObject.DispatchTimerEvent` | crates/sim/src/kernel.rs:388-411 | a timer fires unless its node is crashed or absent |
| `KernelNode.KernelObject.DispatchMessageArrival` | crates/sim/src/kernel.rs:414-463 | an arrival is delivered, dropped, or strays |
| `KernelNode.KernelObject.RunUntil` | crates/sim/src/kernel.rs:368-386 | the loop dispatches in order and ends early exactly when nothing due is left |
| `KernelNode.EventQueue.Pop` | crates/sim/src/queue.rs:62-64 | popping removes the earliest event |
| `KernelNode.Faults.Apply` | crates/sim/src/fault.rs:51-94 | each command changes the fault state as defined; a multiplier up to one clears a slow-down |
| `Quorums.Intersect` | crates/consensus/src/proposer.rs:86-113 | two majorities of one membership share a member |
| `Isr.ReplayRepresents` | crates/consensus/src/isr.rs:69-126 | after any calls the four fields are what the full history says they should be |
| `Isr.Cell.constructor` | crates/consensus/src/isr.rs:80-100 | a fresh register is at step 0 with nothing recorded |
| `Recorders.Recorder.constructor` | crates/consensus/src/recorder.rs:20-37 | a fresh recorder holds a fresh register |
| `ProposerNode.Proposer.constructor` | crates/consensus/src/proposer.rs:584-642 | a new proposer is at step 0, undecided and inactive, with its input as template |
| `ProposerNode.ReplicaNode.constructor` | crates/consensus/src/concrete.rs:68-78 | proposer and recorder share one step cell, initially 0 |
| `ProposerNode.Ctx.Send` | crates/consensus/src/proposer.rs:830-844 | a send is appended to the outbox |
| `ProposerNode.Ctx.ScheduleTimer` | crates/consensus/src/proposer.rs:785-828 | a timer is appended to those armed |
| `Invariant.InvInit` | crates/consensus/src/proposer.rs:584-620 | the invariant holds before anything happens |
| `Invariant.HandleKeepsInv` | crates/consensus/src/recorder.rs:41-50 | a recorder handling any request keeps the invariant: its reply is truthful for ever after |
| `Preservation.DeliverKeepsInv` | crates/consensus/src/proposer.rs:851-1021 | delivering any reply, at any time and any number of times, keeps the invariant |
| `Preservation.KickKeepsInv` | crates/consensus/src/proposer.rs:739-750 | a first kickoff keeps the invariant |
| `Preservation.HedgeKeepsInv` | crates/consensus/src/proposer.rs:757-780 | a hedge check keeps the invariant, whatever step it reads |
| `QuorumFacts.ReplyFacts` | crates/consensus/src/proposer.rs:851-877 | a reply is never behind its request, and if it is at the same step its recorder folded the request in |
| `QuorumFacts.BestFirst` | crates/consensus/src/proposer.rs:977-1005 | the best first value of an all-at-step quorum exists and is the best over a majority |
| `Facts.SentWasSpread` | crates/consensus/src/proposer.rs:86-113 | whatever is sent in phase 2 or 3 was folded in by a majority one step before |
| `Facts.ValuesPersist` | crates/consensus/src/proposer.rs:54-116 | a set of values that contains all sent at one step, phase 3 aside, contains all sent later |
| `Facts.TopIsUnique` | crates/consensus/src/proposer.rs:324-328 | a step-4 proposal at least as good as one at priority `H` carries the leader's value |
| `Algorithm1.RoundSettles` | crates/consensus/src/algorithm.rs:264-300 | a first delivery makes every live replica hold its value |
| `Algorithm1.RoundKeepsCommitted` | crates/consensus/src/algorithm.rs:197-300 | once all live replicas hold a value, later rounds hold and deliver nothing else |
| `Algorithm1.RunIsSafe` | crates/consensus/src/algorithm.rs:197-300 | the safety invariant holds all along every run |
| `Tcast.SeedMailboxes` | crates/consensus/src/tcast.rs:146-157 | every live mailbox starts with its owner's input alone |
| `Tcast.Mailboxes.Deliver` | crates/consensus/src/node.rs:79-89 | the first delivery from a sender wins |
| `Tcast.Mailboxes.Reset` | crates/consensus/src/tcast.rs:146-157 | a reset mailbox holds its owner's input |
| `Tcast.HeardMore` | crates/consensus/src/tcast.rs:168-207 | a pending pair the network lets through once is never pending after the next pruning |
| `ClusterDriver.Cluster.constructor` | crates/consensus/src/algorithm.rs:70-111 | all replicas start live with their inputs, undecided |
| `Bytes.ByteAt` | crates/net/src/persist.rs:173-187 | byte i of a word is the one worth 256^i |
| `Bytes.LittleEndianInverts` | crates/net/src/persist.rs:173-210 | bytes read as a word exactly when they are its little-endian form |
| `Persist.Store.constructor` | crates/net/src/persist.rs:405-420 | a store opens over the files an earlier process left |
| `Host.Node.constructor` | crates/net/src/driver.rs:444-470 | a process starts from the snapshot on disk, or from nothing |
| `CrashRestart.WriteMatches` | crates/net/src/driver.rs:592-632 | a completed write of a batch is matched by handling its requests one by one |
| `Chain.ChainCheckpoints.SetFrontier` | crates/net/src/chain.rs:180-182 | the frontier is replaced as one value |
| `Chain.ChainCheckpoints.constructor` | crates/net/src/chain.rs:137-148 | an empty table; a spacing of zero means one |
| `Chain.ChainFolder.constructor` | crates/net/src/chain.rs:318-323 | a folder starts from genesis |
| `Chain.CrossedGrows` | crates/net/src/chain.rs:336-344 | checkpoints once crossed stay where they are as the log grows |
| `Observer.WitnessesMeaning` | crates/conformance/src/observer.rs:185-215 | the witness of a height is the first sample seen there |
| `Observer.Observer.ClusterFrontier` | crates/conformance/src/observer.rs:278-284 | the frontier is the greatest height any replica has shown, 0 if none has |
| `Observer.Observer.constructor` | crates/conformance/src/observer.rs:165-182 | an observer starts having seen nothing |
| `Kernel.SendKeepsInv` | crates/sim/src/kernel.rs:75-153 | a send keeps every message accounted for |
| `Kernel.FaultKeepsInv` | crates/sim/src/kernel.rs:291-357 | a fault command, restart callback included, keeps the kernel's invariant |
| `Kernel.NextKeepsInv` | crates/sim/src/kernel.rs:231-463 | everything a scenario can do keeps the kernel's invariant and the clock from going back |
| `Kernel.Earliest` | crates/sim/src/queue.rs:58-69 | the next event is the least by time, then sequence number |
| `Kernel.Advance` | crates/sim/src/time.rs:27-29 | time saturates and never goes back |
| `KernelNode.KernelObject.constructor` | crates/sim/src/kernel.rs:176-200 | a fresh kernel |
| `KernelNode.KernelObject.TurnOnce` | crates/sim/src/kernel.rs:368-386 | one iteration of the loop, and whether anything was due |
| `KernelNode.KernelObject.RunCallback` | crates/sim/src/kernel.rs:388-411 | a callback's sends and timers are performed in order |
| `KernelNode.KernelObject.BumpSeq` | crates/sim/src/kernel.rs:65-69 | sequence numbers are handed out once each |
| `KernelNode.EventQueue.Push` | crates/sim/src/queue.rs:58-60 | pushing adds the event |
| `KernelNode.EventQueue.PeekTime` | crates/sim/src/queue.rs:66-68 | peeking gives the time of the earliest event |

## Left out

- Multi-slot replication: the log driver, key-value store, catch-up probes and auto-tuner of the replicated log; a host is modelled as a map from slots to recorders.
- Host.Node.RunBatch: client acknowledgements and the logical tick stored beside the snapshot are not modelled, because results of operations come from the log driver; proposers' own sends are not buffered but immediate, which allows more behaviours.
- Host.Node.Dispatch: only requests to recorders change anything; what replies, timers and client submissions do to the log driver is not modelled.
- Host.Node.FlushOutbound: released replies are one sequence; that a reply to the host itself re-enters its inbox, and that a full queue drops one, is left to the network, which may deliver or lose anything.
- Restarted proposers that reuse step numbers, and replies from one attempt reaching the next: outside the agreement theorem; the second-kickoff run shows what goes wrong there.
- Proposals.Best: elements are proposals over integer values, not over an arbitrary ordered type.
- KernelNode.KernelObject.RunUntil: runs for as many events as it is given callback scripts, because the loop need not end; payload sizes and the leader hint to schedulers are not modelled.
- KernelNode.EventQueue.Pop: the binary heap itself is a library's; the queue is the set of its events.
- Observer.Observer.Observe: rendering of reports is not modelled.
- Sampling.SamplesFromChain: the simulated cluster's own polling modes are not modelled, only the cursor over published checkpoints.
- ChainHash.ExtendMeaning: that a divergence stays visible at every later height is not claimed, since hashing the previous head is not shown to be injective.
- Cluster restart of the abstract protocol, which its documentation excludes from crash-stop.
- Termination with probability 1 under an oblivious adversary; that every reachable state leaves each proposer a way to a decision is proved instead.
- Sockets, TLS, wire framing, HTTP status, metrics, admin and benchmark tools: I/O around the protocol.
- Power loss that rolls back a completed rename before the directory is synced: file-system steps are taken as atomic and honest.
