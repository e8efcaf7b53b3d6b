# A verified model of Mir

Mir is a framework for Byzantine fault-tolerant state machine replication: a node is a set of modules that exchange
events, and the modules implement an ordering protocol (ISS), a checkpoint protocol, reliable broadcast, an
availability layer and their supporting machinery. This project models the parts that carry the protocol's guarantees
and proves what they promise, for every input, every run and every schedule.

`dafny verify dfyconfig.toml` checks everything.

## How it is organised

Every component comes in the form the program has it: a class whose methods update fields in place and loop where the
program loops. Each method is proved against a function of the state, and the theorems are about those functions and
about all runs made of them.

| component | as it runs | as functions | theorems |
|---|---|---|---|
| ISS epoch machine | `IssModule` | `Iss`, `Segments` | `IssRuns`, `IssTheorems`, `IssProgress`, `IssSetup`, `IssRequests`, `IssEpochEnd`, `IssOrder`, `IssSuspicions`, `IssLeaders`, `StateTransfer`, `EndToEnd` |
| checkpoint protocol, certificates, validators | `Checkpoint` | `Checkpoint`, `Certificates` | `CheckpointSystem`, `CheckpointValidity`, `EndToEnd` |
| signed echo broadcast | `Bcb` | `Bcb` | `BcbSystem`, `BcbValidity` |
| leader selection, weighted quorums | `LeaderPolicies`, `Quorums` | `LeaderPolicies`, `Quorums`, `SortedKeys` | the same |
| batch fetcher, client progress | `BatchFetcherModule`, `ClientTrackers` | `BatchFetcher`, `ClientProgress` | `BatchFetcher`, `BatchDedup`, `BatchOutput`, `ClientProgress`, `TransactionOrder` |
| message buffer, factory | `MessageBuffer`, `FactoryModule` | `MessageBuffer`, `Factory`, `ModuleIds` | `MessageBuffer`, `FactoryTheorems`, `FactoryRetention`, `FactoryLifetimes` |
| node event loop | `NodeLoop` | `Node` | `Node` |
| simulation runtime | `ActionQueue`, `SimRuntime` | `ActionHeap`, `Simulation` | `ActionHeap`, `Simulation`, `SimWaking` |

The two distributed protocols are modelled as systems of nodes: correct nodes run their handlers, faulty nodes send
anything they can put together, and messages, hash results, signatures and verification results are answered in any
order, or never. Steps that are not enabled change nothing, so a theorem about all step sequences covers all
interleavings.

## What is idealised

- Signatures verify exactly for their signer and data, and those of correct nodes cannot be made up. A hash is an
  arbitrary function; where two snapshots must not collide, the theorem says so.
- Serialisation is the identity, apart from bytes that do not decode (a leader policy, a certificate, a common
  checkpoint).
- Sequence, epoch and transaction numbers are unbounded; simulated time is 64-bit with its overflow test. Node
  identifiers are numbers, ordered as such. Vote weights are integers, as in the program.
- Where the program iterates over a map, the model allows every order. Ties of the blacklist policy may be broken in
  any way (`Iss.Chooser`).
- An error return or a panic of a module ends the run.
- Requests and answers between modules (hashing, signing, verification, availability, application, timers, network)
  are events; the environment may answer at any time.
- What a theorem expects of the environment is in its preconditions: nothing (gap-free delivery, gating, epochs that
  end when and only when they are complete, requests), checkpoints with ConfigOffset+1 memberships, which validation
  ensures (the membership pipeline), or outcomes in range, which follows from orderers keeping to their segments and
  installed checkpoints not starting below the end of the epoch they replace.
- In the simulation everything done under one lock is one step; one goroutine drives the runtime.

## Where the code decides

- `VerifyCert` (pkg/checkpoint/checkpoint.go:163-193) sums the weights of the signers before it looks whether they
  are members, so a certificate with a signer outside the membership panics instead of being rejected
  (`Certificates.Verdict`).
- The comment on `deliverCert` (pkg/iss/iss.go:833-836) speaks of a later insertion into the commit log; the code
  inserts at once, and so does the model.
- A configuration with an epoch length instead of a segment length passes the checks (pkg/iss/config/config.go:108-123),
  but the code only uses the segment length, which is then zero, so that all epochs are empty.
- `Resize` (pkg/messagebuffer/messagebuffer.go:152-165) with a negative capacity reaches an empty list and panics.
- `Run` (node.go:188-201) adds one Init event per module without the pause test, hence the exact condition in
  `Node.PausesInTimeIff`.
- The FINAL handler of the broadcast (pkg/bcb/bcbmodule.go:136-144) compares lengths only, hence the condition on
  certificates in `BcbSystem.Consistency` and `BcbSystem.RepeatedSignerBreaksConsistency`.
- A second broadcast request (pkg/bcb/bcbmodule.go:77-84) replaces the first one while its echoes are under way, and
  nil data counts as no request, hence the condition in `BcbValidity.Validity`.
- A failing input ends the run of ISS, hence `IssSetup.FailsIff`: the only failures left are a checkpoint that could not
  be agreed on (pkg/iss/iss.go:866-870), a second membership in one epoch (pkg/iss/iss.go:259-297) and a checkpoint
  without members (pkg/iss/iss.go:345).
- Validity of memberships (pkg/util/membutil/membutil.go:101-120) admits negative weights, hence the condition in
  the quorum lemmas, `Quorums.NegativeWeightsBreakIntersection` and `LeaderPolicies.NegativeWeightsLoseQuorum`.
- `Delay` (pkg/testsim/process.go:43-49) reads the time before it takes the lock of the queue, and `Kill` may come in
  between, as it does for repeating timers (pkg/deploytest/simtimer.go:132-139): hence the condition in
  `Simulation.TimeNeverDecreases` and `Simulation.KilledInDelayTurnsBackIff`.
- `RemoveFront` (stdtypes/eventlist.go:105-119) documents the number of events removed but returns a negative n as it is.

## Model

| member | source | states |
|---|---|---|
| `IssTheorems.GapFreeDelivery` | pkg/iss/iss.go:688-739 | In every run, whatever the environment does, the certificates delivered since the last restore carry consecutive sequence numbers starting at the restored checkpoint, each once; the next number is not below the first one of the epoch, whose end is its first number plus the summed segment lengths. |
| `IssEpochEnd.DeliveryStaysInEpoch` | pkg/iss/iss.go:688-739 | If every outcome arrives while its sequence number is below the end of the current epoch, no move of the run takes delivery past that end. |
| `IssEpochEnd.StaysInEpochIff` | pkg/iss/iss.go:688-739 | Over every run, in any environment: what is delivered stays within the epoch all the time exactly if no move meets the condition of the next row. |
| `IssEpochEnd.StepStaysInEpochIff` | pkg/iss/iss.go:230-297 | For every input and every state within the epoch, exactly when handling it passes the end: an outcome that fills the last gap up to newEpochSN with the checkpoint in place, or an agreed checkpoint at the epoch's first number, newer than the last one, with no gap left. |
| `IssRuns.LegalRunsAreInRange` | pkg/iss/iss.go:636-670 | Every outcome does arrive so if orderers deliver only at numbers they were given and no installed checkpoint starts below the end of the epoch it replaces (Sn at least newEpochSN); then no segment was ever created beyond the current end either. |
| `IssEpochEnd.InsertStaysInEpochIff` | pkg/iss/iss.go:688-739 | From any state within the epoch: inserting an outcome takes delivery past the end of the epoch exactly if the epoch's checkpoint is there and the outcome fills the last gap from the next number up to newEpochSN. |
| `IssEpochEnd.InstallingBelowOvershoots` | pkg/iss/iss.go:461-523 | Keeping to created numbers is not enough: a run in which orderers do, a checkpoint below the old end is installed, and late outcomes of an old segment take delivery past the end of the new epoch. |
| `IssEpochEnd.PastTheEndIsStuck` | pkg/iss/iss.go:676-686 | Over every run: a node that has delivered past the end of an epoch never leaves that epoch and announces no other one, unless it is restored. |
| `IssEpochEnd.PastTheEndStays` | pkg/iss/iss.go:676-686 | One input, other than a checkpoint that is installed, leaves such a node where it is. |
| `IssTheorems.CheckpointGatesDelivery` | pkg/iss/iss.go:688-697 | Every DeliverCert is preceded by an event to the application that carries the checkpoint at the first sequence number of the certificate's epoch, and carries the next number, not below the epoch's first one; in every environment. |
| `IssTheorems.EpochsEndComplete` | pkg/iss/iss.go:673-686 | An epoch is followed by the next one (unless by a restore) only after all sequence numbers its orderers were given have been delivered, a checkpoint at its first sequence number was announced, and a membership was accepted in it: by a move of the run made in that epoch, after which no other epoch was announced. |
| `IssProgress.EpochsDoEnd` | pkg/iss/iss.go:676-739 | The converse, over every run and in any environment: it never happens that everything the orderers of an epoch were given has been delivered, a checkpoint at the epoch's first number was the last one announced, a membership was accepted since the epoch started, and the next epoch has not started. |
| `IssProgress.LastConditionEndsEpoch` | pkg/iss/iss.go:676-739 | Over every run: a move that restores nothing announces exactly the next epoch if it brings the last condition for it (the epoch's checkpoint, a membership, or the outcome that closes the last gap before the end, with none beyond it), and otherwise none. |
| `IssProgress.StepEndsEpochIff` | pkg/iss/iss.go:259-297 | The same for one input, in every state that a run can reach. |
| `IssProgress.OutcomesAreDelivered` | pkg/iss/iss.go:688-731 | Over every run: with the checkpoint of the current epoch in place, the next number to be delivered is one for which no outcome was received since the last restore. |
| `IssProgress.GapFreeOutcomesAreDelivered` | pkg/iss/iss.go:688-731 | So everything received without a gap since the last restore has been delivered. |
| `IssProgress.AgreedAreAnnounced` | pkg/iss/iss.go:866-893 | Over every run: the last announced checkpoint is at least as new as every one agreed on since the last restore. |
| `IssProgress.AnnouncedWasAgreed` | pkg/iss/iss.go:866-893 | Every checkpoint the application is told of was agreed on or installed. |
| `IssSetup.EpochsAreSetUp` | pkg/iss/iss.go:592-670 | Over every run: whenever an epoch is announced, it is followed by its availability module, the first certificate request and its orderers, whose segments have members as leaders and partition the sequence numbers of the epoch from the first one on; then by a checkpoint instance for exactly the state in which the epoch starts, run by the membership before, and a snapshot request, or, after a restore, by the restored checkpoint. |
| `IssSetup.FirstEpochIsSetUp` | pkg/iss/iss.go:214-225 | So is the epoch of the checkpoint that a run starts from, after the restore. |
| `IssSetup.FailsIff` | pkg/iss/iss.go:230-535 | Over every run in which memberships have weight, only certificates are found valid and checkpoints carry a leader policy for their first membership: handling an input fails exactly if no checkpoint could be agreed on, a second membership comes in an epoch, or a new checkpoint has no members to agree on it. |
| `IssSetup.StepFailsIff` | pkg/iss/iss.go:230-535 | The same for one input; otherwise the state stays healthy. |
| `IssTheorems.EpochWasGiven` | pkg/iss/iss.go:673-686 | Every epoch announced without a restore follows the acceptance of a membership since the last announcement of an epoch. |
| `IssTheorems.StepGiven` | pkg/iss/iss.go:688-739 | A handler that leaves a membership waiting announces no epoch, and one that announces an epoch announces just one and had a membership waiting or was given one. |
| `IssTheorems.PipelineIsFull` | pkg/iss/iss.go:744-759 | In every run whose starting and validated checkpoints have ConfigOffset+1 memberships, the pipeline holds exactly ConfigOffset+1 memberships: those planned for the current epoch and the ConfigOffset following ones. |
| `IssTheorems.AcceptedMembershipIsUsed` | pkg/iss/iss.go:259-297 | In every such run, a membership accepted in epoch e is, if nothing is restored in between, the one with which every availability module and orderer of epoch e+1+ConfigOffset is created. |
| `IssTheorems.PlanIsKept` | pkg/iss/iss.go:744-759 | In every such run, the membership decided for an epoch never changes between restores. |
| `IssTheorems.ForwardedCheckpointsAreCheckable` | pkg/iss/iss.go:431-459 | In every such run, for every checkpoint ISS forwards, both validators look up an index in range and find the membership of the epoch just before the checkpoint's; farther ones are rejected (conservative) or checked against their own previous membership (permissive). |
| `IssTheorems.ValidatedRunsAreCounted` | pkg/checkpoint/checkpoint.go:275-336 | Checkpoints have that many memberships if the starting one passes verification and every validated one was accepted by one of the two validators. |
| `IssRequests.TotalOrder` | pkg/iss/iss.go:230-257 | From the orderers: if the orderers of two nodes deliver what they agreed on, and certificates are verified only on request and with the same verdict, the nodes never deliver different certificates at the same number, and nothing but the agreed data, if it is a valid certificate, or nothing. |
| `IssRequests.DueIsDelivered` | pkg/iss/iss.go:688-731 | And in such runs the agreed certificate is delivered at every number before the first one without an outcome, with the epoch's checkpoint in place. |
| `IssRequests.DeliveriesAreVerified` | pkg/iss/iss.go:813-831 | Over every run: the certificates sent to be verified are exactly the readable data delivered by orderers and not aborted, each once, in order, with its sequence number and leader. |
| `IssRequests.RequestsAreMade` | pkg/iss/iss.go:230-535 | Over every run: each move makes exactly the requests it has to. Readable data is sent to be verified in the current epoch; a checkpoint more than one epoch ahead is sent to be validated with the pipeline of memberships; a stable checkpoint newer than all before it gets a validator and an orderer led by the member with (epoch modulo size) smaller ones; an agreed checkpoint has six modules drop what is older than the retained epochs and is pushed from then on; an installed one has four modules drop everything older. |
| `IssRequests.KeepsRecentEpochs` | pkg/iss/iss.go:918-923 | Over every run: state is kept for exactly the epochs started since the last restore that no later checkpoint has dropped. |
| `IssOrder.SameOutcomesSameCerts` | pkg/iss/iss.go:688-739 | Two nodes that are given the same outcomes for sequence numbers never deliver different certificates at the same number. |
| `IssOrder.DeliveredAsDecided` | pkg/iss/iss.go:688-739 | Every sequence number below the next one was delivered since the restore, with exactly the outcome decided for it. |
| `IssOrder.DeliversWhatWasDecided` | pkg/iss/iss.go:230-257 | In every run the commit log and the delivered certificates carry the decided outcomes: aborted, undecodable or invalid ones deliver nothing. |
| `TransactionOrder.SameOutcomesSameTransactions` | pkg/trantor/moduleconfig.go:56-70 | Two nodes with the same decided outcomes and the same transactions behind certificates, restored from the same checkpoint, give their applications transactions of which one is a prefix of the other, however events and answers are timed. |
| `TransactionOrder.SameDeliveriesSameTransactions` | pkg/trantor/moduleconfig.go:56-70 | The same from the orderers on: agreed deliveries, verdicts on certificates and stored transactions determine the transactions, up to how far a node has come. |
| `TransactionOrder.TransactionsAreDecided` | pkg/trantor/moduleconfig.go:56-70 | What a node delivers is a prefix of the first occurrences, on top of the restored progress, of the transactions behind the certificates decided from the restored sequence number on. |
| `TransactionOrder.TransactionsAreCanonical` | pkg/batchfetcher/batchfetcher.go:54-129 | For the batch fetcher alone: the delivered transactions are a prefix of the first occurrences of those behind the delivered certificates, all of them once every request is answered. |
| `TransactionOrder.FeedMeans` | pkg/iss/iss.go:705-731 | The events of ISS bring the batch fetcher exactly the certificates delivered since the last restore, and that restore's progress. |
| `IssTheorems.ViewReadsTrace` | pkg/iss/iss.go:705-731 | What the observer automaton tracks is what the event trace says: delivered numbers since the restore, epoch start and size, last announced checkpoint. |
| `IssRuns.RunSeen` | pkg/iss/iss.go:136-537 | Every run, in any environment, is accepted by the observer automaton, and its view is that of the module's fields. |
| `IssRuns.RunStaysScheduled` | pkg/iss/iss.go:136-537 | Every run whose checkpoints have the right number of memberships keeps the pipeline, and everything created with a membership, on schedule. |
| `IssRuns.RunStaysBounded` | pkg/iss/iss.go:136-537 | Every run whose outcomes are in range keeps the next sequence number and the commit log within the epoch. |
| `IssRuns.StepSeen` | pkg/iss/iss.go:214-535 | Each handler's events, read by the observer automaton, lead from the view of the old state to the view of the new one. |
| `IssRuns.StepBelow` | pkg/iss/iss.go:636-670 | An outcome in range keeps the log and the next number below the end of the epoch, as are all sequence numbers of created segments; the end moves back only by installing a checkpoint below it. |
| `IssRuns.StepPlanned` | pkg/iss/iss.go:744-800 | Each handler keeps the pipeline equal to the plan, and creates availability modules, orderers and checkpoint instances with the planned memberships (a checkpoint is signed by the membership of the epoch before). |
| `IssModule.Module.constructor` | pkg/iss/iss.go:183-203 | The fields of a new instance, taken from the starting checkpoint. |
| `IssModule.Create` | pkg/iss/iss.go:136-203 | An instance is created exactly if the configuration passes all its checks and the starting checkpoint has a readable leader policy and passes verification; it starts with ConfigOffset+1 memberships. |
| `IssModule.CheckParams` | pkg/iss/config/config.go:96-141 | A configuration passes exactly if the initial membership is valid, ConfigOffset is at least 1, one of segment and epoch length is positive and the other zero, delay and buffer capacity are not negative, and the catch-up period is positive. |
| `IssModule.Module.UponInit` | pkg/iss/iss.go:214-225 | Init restores the application from the starting checkpoint and starts its epoch. |
| `IssModule.Module.RunStartEpoch` | pkg/iss/iss.go:592-632 | Starting an epoch sets the epoch information, enters it into the table, and announces the epoch, its availability module, the first certificate request and its orderers, in this order; fails without memberships or with a leader outside the membership. |
| `IssModule.Module.InitOrderers` | pkg/iss/iss.go:636-670 | The loop creates one interleaved segment per leader and adds their lengths to the end of the epoch. |
| `IssModule.Module.RunAdvanceEpoch` | pkg/iss/iss.go:744-806 | Advancing shifts the pipeline, reconfigures the leader policy, starts the epoch, and then creates the checkpoint instance with the old membership and requests a snapshot. |
| `IssModule.Module.DeliverNext` | pkg/iss/iss.go:705-731 | One delivery: suspects on abort, fails on undecodable data, emits the certificate, removes the entry, moves on by one. |
| `IssModule.Module.DeliverCommitted` | pkg/iss/iss.go:699-731 | The loop delivers exactly the contiguous run of log entries from the next sequence number on, in order, or fails if one of them cannot be decoded. |
| `IssModule.Module.RunProcessCommitted` | pkg/iss/iss.go:688-739 | Nothing is delivered without the epoch's checkpoint; after delivering, a finished epoch is left. |
| `IssModule.Module.RunDeliverCert` | pkg/iss/iss.go:837-864 | An entry is inserted (replacing one for the same number) and everything deliverable delivered. |
| `IssModule.Module.UponSbDeliver` | pkg/iss/iss.go:230-245 | Aborted data is logged, undecodable data replaced by an empty aborted entry with a suspicion, anything else sent for verification. |
| `IssModule.Module.UponCertVerified` | pkg/iss/iss.go:247-257 | A valid certificate is logged; an invalid one becomes an empty aborted entry with a suspicion. |
| `IssModule.Module.UponCommonCheckpoint` | pkg/iss/iss.go:866-941 | An agreed checkpoint newer than the last one is announced, unblocks deliveries, and prunes old epochs; undecodable data is an error. |
| `IssModule.Module.RunPrune` | pkg/iss/iss.go:905-941 | With more epochs than are retained, the six modules are told to drop what is older, the loop drops the older entries of the epoch table and no others, and the checkpoint is pushed periodically. |
| `IssModule.Module.UponNewConfig` | pkg/iss/iss.go:259-297 | An outdated membership is ignored, a second one in an epoch is an error, and the last missing piece of an epoch advances it. |
| `IssModule.Module.UponStableCheckpoint` | pkg/iss/iss.go:314-386 | A checkpoint newer than the last proposed one gets a validator and its own orderer, led by a member chosen by the epoch number. |
| `IssModule.Module.UponStableCheckpointReceived` | pkg/iss/iss.go:431-459 | Only checkpoints at least two epochs ahead are forwarded for validation. |
| `IssModule.Module.UponCheckpointValidated` | pkg/iss/iss.go:461-535 | A rejected, overtaken or undecodable checkpoint changes nothing; otherwise it is installed. |
| `IssModule.Module.RunInstall` | pkg/iss/iss.go:481-535 | Installing starts the epoch of the checkpoint from the replaced state, then announces the checkpoint and tells four modules to drop everything older. |
| `IssModule.Module.ReplaceState` | pkg/iss/iss.go:481-515 | Policy, epoch table, log, sequence numbers, pipeline and last checkpoint are replaced and the application is restored. |
| `EndToEnd.StateTransferMatchesExecution` | pkg/iss/iss.go:461-523 | Under the Simple policy, a node that installs the checkpoint of an epoch and then handles some inputs ends up equivalent to another node that advanced into the epoch, handled the same inputs, and got the checkpoint afterwards; both deliver the same certificates, also for all later inputs that bring no other policy. The two nodes choose leaders independently. |
| `EndToEnd.AcceptedCheckpointWasExecuted` | pkg/checkpoint/chkpvalidator/conservativecv.go:39-73 | What the conservative validator accepts and ISS installs is the state some correct node reached by executing, given that the snapshot's hash has no collision: entirely under the Simple policy, up to segments and end of the epoch under the blacklist policy. Every node breaks ties in its own way. |
| `EndToEnd.AnnouncedSnapshotsAgree` | pkg/checkpoint/protocol.go:209-225 | Checkpoints announced by correct nodes carry the same snapshot, given that its hash has no collision. |
| `EndToEnd.CertifiedWasMade` | pkg/checkpoint/checkpoint.go:163-193 | A checkpoint whose certificate passes the check was made by the checkpoint instance of a correct node. |
| `StateTransfer.InstallMatchesAdvance` | pkg/iss/iss.go:744-800 | Installing a checkpoint made for an epoch gives epoch number, first and next sequence number, memberships and policy of the node that advanced into it, also if the two break ties among leaders differently; under the Simple policy segments and end of the epoch too. It succeeds under the Simple policy or with positive total weight. |
| `StateTransfer.SimpleLeavesNoChoice` | pkg/iss/leaderselectionpolicy/simple.go:28-47 | Under the Simple policy the leaders, and so every outcome, are determined by the state and the input, and the policy stays Simple. |
| `StateTransfer.SimpleRunsLeaveNoChoice` | pkg/iss/leaderselectionpolicy/simple.go:28-47 | So two nodes with their own ways of choosing leaders have the same outcome for every input sequence that brings no other policy. |
| `StateTransfer.SameRuns` | pkg/iss/iss.go:214-535 | Two nodes in equivalent states with the same way of breaking ties fail on the same inputs, stay equivalent, and deliver the same certificates for every input sequence. |
| `StateTransfer.StepAgrees` | pkg/iss/iss.go:214-535 | One input keeps states equivalent with identical output, except that each node proposes the checkpoints it has not proposed before. |
| `StateTransfer.OvertakenInputs` | pkg/iss/iss.go:688-739 | Any inputs handled while waiting for the epoch's checkpoint can as well be handled after it. |
| `StateTransfer.RunInsert` | pkg/iss/iss.go:699-731 | Delivering what is there and then inserting an entry delivers the same as inserting it first. |
| `CheckpointSystem.Agreement` | pkg/checkpoint/protocol.go:81-182 | Over all runs with faulty weight within bounds, any two checkpoints announced by correct nodes of an instance are for the same epoch, sequence number and snapshot hash. |
| `CheckpointSystem.AnnouncedCertificatesVerify` | pkg/checkpoint/checkpoint.go:163-193 | Every announced certificate passes the check other nodes apply, against the membership that ran the protocol. |
| `CheckpointValidity.Validity` | pkg/checkpoint/protocol.go:81-297 | If the correct nodes of an instance have the same configuration and were given the same application data and client progress, every request was answered, and every message among them received, if only once, then every correct node has announced that snapshot, exactly once, with a certificate that passes the check. |
| `CheckpointValidity.AnnouncesIff` | pkg/checkpoint/protocol.go:209-225 | In every run a correct node has announced a checkpoint exactly if its snapshot is complete and the signatures it has collected are a strong quorum; then once, and with its own snapshot. |
| `CheckpointValidity.SnapshotIsGiven` | pkg/checkpoint/protocol.go:81-182 | What a node checkpoints is the application data and the client progress it was given first; missing data counts as empty. |
| `CheckpointValidity.ReceivedIsTakenIn` | pkg/checkpoint/protocol.go:227-297 | In every run a message of a correct node that was received once has had its effect: it is for another checkpoint or hash, the checkpoint is stable without it, its signature is being or was verified, or it is kept until the own signature is made. |
| `CheckpointValidity.RunOwed` | pkg/checkpoint/protocol.go:81-297 | In every run a correct node has done or requested all it has to do: hashed and signed its snapshot, sent the signature, and had every signature it noted verified; messages of correct nodes are their own broadcasts. |
| `CheckpointValidity.AnnouncedIsAccepted` | pkg/checkpoint/chkpvalidator/conservativecv.go:39-73 | What a correct node announces is accepted by the conservative validator if the signing membership is among those it knows, and by the permissive one also if it is further ahead. |
| `CheckpointValidity.ProgressIsReported` | pkg/checkpoint/protocol.go:227-258 | A message reports the progress of its sender exactly if it is for this checkpoint and from a member. |
| `CheckpointSystem.VerifiedCertificatesAreBacked` | pkg/checkpoint/checkpoint.go:163-193 | A certificate made of signatures that exist in the run passes the check only if a correct node holds exactly the certified snapshot hash. |
| `CheckpointSystem.NextKeepsInv` | pkg/checkpoint/protocol.go:81-297 | Every step keeps: each correct node signs at most one claim, the one of its own snapshot, and counts only signatures over it. |
| `Checkpoint.Module.constructor` | pkg/checkpoint/protocol.go:63-77 | A new instance has nothing collected. |
| `Checkpoint.Module.UponSnapshot` | pkg/checkpoint/protocol.go:81-97 | The first application snapshot counts, missing data as empty; the hash is requested once both parts are there. |
| `Checkpoint.Module.UponClientProgress` | pkg/checkpoint/protocol.go:169-182 | The first client progress counts; the hash is requested once both parts are there. |
| `Checkpoint.Module.UponHashResult` | pkg/checkpoint/protocol.go:99-109 | The hash is saved and a signature over epoch, sequence number and hash requested. |
| `Checkpoint.Module.IsStable` | pkg/checkpoint/protocol.go:304-306 | Stable means: snapshot complete and signatures of a strong quorum, computed by summing weights; it panics exactly if the snapshot is complete and a signer is no member. |
| `Checkpoint.Module.AnnounceStable` | pkg/checkpoint/protocol.go:209-225 | A stable checkpoint is announced once, with all collected signatures. |
| `Checkpoint.Module.ApplyCheckpointReceived` | pkg/checkpoint/protocol.go:227-297 | Which messages are ignored, put aside, or lead to one verification per sender. |
| `Checkpoint.Module.UponSignResult` | pkg/checkpoint/protocol.go:111-150 | The own signature counts, may complete the quorum, is broadcast, and releases the messages put aside; panics exactly if the node is no member. |
| `Checkpoint.Module.ApplyPending` | pkg/checkpoint/protocol.go:139-147 | The loop over the messages put aside has the same result in every order. |
| `Checkpoint.Module.UponSigVerified` | pkg/checkpoint/protocol.go:152-167 | A valid signature of a sender noted before, who is a member, is collected and may complete the quorum; an invalid one changes nothing. |
| `Checkpoint.ReceiveOneMore` | pkg/checkpoint/protocol.go:139-147 | Receiving one more pending message equals receiving it together with those before. |
| `Quorums.ListOf` | pkg/util/maputil/maputil.go:11-17 | The keys of a map as a list without repetitions, in arbitrary order. |
| `Certificates.RunVerifyCert` | pkg/checkpoint/checkpoint.go:163-193 | Certificate verification as it runs: panics on a signer outside the membership, rejects without a weak quorum or with an invalid signature, accepts otherwise. |
| `Certificates.RunVerify` | pkg/checkpoint/checkpoint.go:196-222 | Verification as it runs gives the verdict of its specification: number and validity of memberships, then the certificate (a previous membership in the first epoch is refused), then their consistency. |
| `Certificates.VerifyMeans` | pkg/checkpoint/checkpoint.go:196-222 | Accepted are exactly the checkpoints with ConfigOffset+1 valid memberships, one identity per node, and, except in epoch 0, the given membership as previous one with valid signatures of its members only, of more than the tolerated faulty weight; a panic comes exactly from a signer that is no member. |
| `Certificates.RunSyntacticCheck` | pkg/checkpoint/checkpoint.go:275-336 | The loop accepts exactly ConfigOffset+1 valid memberships and, after the first epoch, a valid previous one. |
| `Certificates.CheckIdentities` | pkg/checkpoint/checkpoint.go:225-246 | The table-filling loops accept exactly if every node has the same identity in all memberships. |
| `Certificates.ConservativeAcceptanceIsBacked` | pkg/checkpoint/chkpvalidator/conservativecv.go:45-73 | An accepted checkpoint lies between 2 and ConfigOffset+1 epochs ahead and carries a correct node's signature, with the certificate checked against the membership of the epoch before the checkpoint's. |
| `Certificates.AcceptedConcernsUs` | pkg/checkpoint/chkpvalidator/permissivecv.go:38-75 | No validator accepts a malformed checkpoint or one of an epoch in which the node is not a member; the conservative one accepts nothing that the permissive one does not. |
| `Quorums.StrongQuorumsShareCorrect` | pkg/util/membutil/membutil.go:27-40 | Two strong quorums of a membership with non-negative weights share a correct node when the faulty weight is at most maxFaulty. |
| `Quorums.WeakQuorumHasCorrect` | pkg/util/membutil/membutil.go:42-53 | Under the same bound every weak quorum contains a correct node. |
| `Quorums.QuorumBounds` | pkg/util/membutil/membutil.go:55-83 | The whole of a valid membership is a strong quorum, no quorum is empty, and weak is at most strong. |
| `Quorums.NegativeWeightsBreakIntersection` | pkg/util/membutil/membutil.go:101-120 | Validity does not exclude negative weights: a valid membership has two disjoint strong quorums. |
| `Quorums.SumWeights` | pkg/util/membutil/membutil.go:15-21 | The loop adds up the weights; without repetitions that is the weight of the set. |
| `Quorums.RunValid` | pkg/util/membutil/membutil.go:101-120 | The loop accepts exactly the memberships that are not empty, have every node under its own identifier, and a total weight other than zero. |
| `Segments.SegmentsPartition` | pkg/iss/iss.go:636-670 | The segments of an epoch are pairwise disjoint, and together hold exactly the numbers from the first to the end of the epoch. |
| `Segments.SegmentHolds` | pkg/iss/iss.go:636-670 | Segment i holds exactly the numbers of [first, first+leaders*length) congruent to first+i modulo the number of leaders, and as many as the segment length. |
| `Segments.EpochLenIsProduct` | pkg/iss/epochinfo.go:53-59 | The summed segment lengths are the number of sequence numbers of the epoch. |
| `Segments.StrideMembers` | pkg/iss/iss.go:967-973 | Which numbers the strides of one segment reach. |
| `Segments.MakeFreeProposals` | pkg/iss/iss.go:967-973 | The loop yields exactly the strided numbers. |
| `Segments.ComputeEpochLen` | pkg/iss/epochinfo.go:53-59 | The loop sums the segment lengths. |
| `Segments.LeaderIndex` | pkg/orderers/common/segment.go:50-58 | The search finds the position of the leader among the sorted members, and never runs past them. |
| `Segments.PrimariesDiffer` | pkg/orderers/common/segment.go:46-48 | In any as many as there are members consecutive views the primaries are all different. |
| `Segments.EveryMemberBecomesPrimary` | pkg/orderers/common/segment.go:46-48 | The leader is the primary of view 0, and every member is the primary of one of any as many as there are members consecutive views. |
| `LeaderPolicies.BlacklistRemembersLatest` | pkg/iss/leaderselectionpolicy/blacklist.go:76-102 | After any suspicions and reconfigurations, suspects are members and each is recorded with the latest epoch in which it was suspected since it last joined. |
| `LeaderPolicies.ReplaySuspects` | pkg/iss/leaderselectionpolicy/blacklist.go:76-102 | From any start: suspected are exactly the nodes suspected as members, or at the start, that have been in every new membership since. |
| `IssSuspicions.SuspectsAreBlamed` | pkg/iss/iss.go:705-765 | In every run of ISS under the blacklist policy, suspected are exactly the nodes recorded as blamed while members since the last restore, or suspected in the restored policy, that have been in every new membership since. |
| `IssSuspicions.BlameIsEarned` | pkg/iss/iss.go:247-257 | Everybody so recorded was the leader of an aborted, undecodable or invalid outcome of the run. |
| `IssSuspicions.BadOutcomesAreBlamed` | pkg/iss/iss.go:705-715 | Conversely, the leader of an undecodable or invalid outcome is recorded when it arrives, and the leader of the bad outcome behind every delivery of nothing when that is delivered. |
| `IssSuspicions.PolicyIsReplayed` | pkg/iss/iss.go:705-765 | The policy is at any time the restored one with the recorded suspicions and the announced memberships applied in order. |
| `IssSuspicions.StepReplays` | pkg/iss/iss.go:813-864 | Each handler does to the policy what its events and its input mean. |
| `IssLeaders.EpochsAreWellLed` | pkg/iss/iss.go:636-670 | In every run whose checkpoints carry a policy about their first membership, the leaders of every epoch with a valid membership without negative weights are a strong quorum of it, and only members are suspected. |
| `IssLeaders.ChoiceIsQuorum` | pkg/iss/leaderselectionpolicy/blacklist.go:32-72 | Under either policy the chosen leaders are a strong quorum; under the blacklist policy they also contain every member never suspected and nobody suspected more recently than a member left out. |
| `IssLeaders.MadeCheckpointsFit` | pkg/iss/iss.go:744-800 | The checkpoints that executing nodes make carry such a policy. |
| `LeaderPolicies.BlacklistLeaders` | pkg/iss/leaderselectionpolicy/blacklist.go:32-72 | Whatever the weights, the leaders are duplicate-free members, contain every member never suspected, no leader suspected more recently than a non-leader, and are no longer than needed; without negative weights they are a strong quorum. Only a total weight that is not positive can make it panic, and then no prefix of the candidates is a quorum. |
| `LeaderPolicies.ChosenAreQuorumIff` | pkg/iss/leaderselectionpolicy/blacklist.go:58-71 | For all weights: the leaders are a strong quorum exactly if the never suspected members are one together or no initial part of them is one. |
| `LeaderPolicies.NegativeWeightsLoseQuorum` | pkg/iss/leaderselectionpolicy/blacklist.go:58-71 | With a negative weight a valid membership can have leaders that are no quorum. |
| `LeaderPolicies.ChosenAreProper` | pkg/iss/leaderselectionpolicy/blacklist.go:58-71 | Without negative weights the leaders are a strong quorum with the properties above. |
| `LeaderPolicies.ChosenArePreferred` | pkg/iss/leaderselectionpolicy/blacklist.go:32-72 | The properties that hold for all weights. |
| `LeaderPolicies.BlacklistPolicy.constructor` | pkg/iss/leaderselectionpolicy/blacklist.go:23-28 | Nobody is suspected at first. |
| `LeaderPolicies.BlacklistPolicy.SuspectNode` | pkg/iss/leaderselectionpolicy/blacklist.go:76-85 | Records a member with the latest epoch of suspicion; suspects stay members. |
| `LeaderPolicies.BlacklistPolicy.ReconfigureTo` | pkg/iss/leaderselectionpolicy/blacklist.go:88-102 | The loop keeps exactly the suspicions of nodes that stay members, in a new policy. |
| `LeaderPolicies.BlacklistPolicy.Leaders` | pkg/iss/leaderselectionpolicy/blacklist.go:32-72 | The same of the leaders of the policy object; with a valid membership without negative weights it always succeeds. |
| `LeaderPolicies.SortIds` | pkg/iss/leaderselectionpolicy/blacklist.go:36-56 | Sorting permutes the members so that none comes after one suspected more recently and the never suspected come first. |
| `LeaderPolicies.MinLeaders` | pkg/iss/leaderselectionpolicy/blacklist.go:58-62 | The loop stops at the shortest non-empty prefix that is a strong quorum; it runs past the list exactly if there is none, never with a positive total weight. |
| `LeaderPolicies.UnsuspectedComeFirst` | pkg/iss/leaderselectionpolicy/blacklist.go:64-68 | A prefix of at least (members minus suspects) sorted members contains all the unsuspected ones. |
| `LeaderPolicies.PrefixIsPreferred` | pkg/iss/leaderselectionpolicy/blacklist.go:58-71 | Such a prefix has nobody suspected more recently than somebody left out. |
| `LeaderPolicies.PrefixIsMinimal` | pkg/iss/leaderselectionpolicy/blacklist.go:58-71 | The list is not longer than both the quorum and the unsuspected members require. |
| `SortedKeys.SortedAscends` | pkg/util/maputil/maputil.go:28-34 | The sorted keys ascend and are exactly the keys. |
| `BcbSystem.Consistency` | pkg/bcb/bcbmodule.go:87-152 | In every run with at most (N-1)/3 faulty nodes, any two deliveries of correct nodes whose certificates list more than (N+F)/2 different members, whatever else they list, carry the same data. |
| `BcbSystem.Integrity` | pkg/bcb/bcbmodule.go:76-152 | With a correct leader, such a delivery carries data the leader was asked to broadcast. |
| `BcbValidity.Validity` | pkg/bcb/bcbmodule.go:76-152 | With a correct leader that was asked to broadcast x, and nothing else: once every message among correct nodes was received, every request answered, if only once, and every state update made, except where that would change nothing, every correct node has delivered; and x, if its certificate lists enough members. |
| `BcbValidity.RunKeepsOnePayload` | pkg/bcb/bcbmodule.go:76-152 | Every run with one payload keeps: all echoes of correct nodes, all checks and collected signatures of the leader and its certificate are over it. |
| `BcbValidity.CertifiesOnce` | pkg/bcb/bcbmodule.go:124-133 | In every run, whatever it is asked, a correct node puts out at most one FINAL message. |
| `BcbValidity.SentToReaders` | pkg/bcb/bcbmodule.go:77-133 | START and FINAL go to all nodes, ECHO to the leader. |
| `BcbValidity.AskedTwiceNeverDelivers` | pkg/bcb/bcbmodule.go:77-84 | Asking for two payloads is not covered: there is a run in which a leader asked for x and, after its echo, for another payload never delivers, whatever is still done. |
| `BcbValidity.AskedForNothingNeverDelivers` | pkg/bcb/bcbmodule.go:106-114 | Nor does a leader asked for no data, since the echo handler takes that for no request. |
| `BcbSystem.NoDuplication` | pkg/bcb/bcbmodule.go:146-152 | A correct node delivers at most once, whatever the certificates. |
| `BcbSystem.CertificatesOverlap` | pkg/bcb/bcbmodule.go:38-45 | Two lists with more than (N+F)/2 different members share a correct member. |
| `BcbSystem.DistinctMembersAreEnough` | pkg/bcb/bcbmodule.go:136-144 | A list of more than (N+F)/2 members without repetitions meets the condition on certificates. |
| `BcbSystem.RepeatedSignerBreaksConsistency` | pkg/bcb/bcbmodule.go:136-144 | The FINAL handler only compares lengths: with one faulty member, any two correct nodes can be made to deliver different data, on certificates that list that member only. |
| `BcbSystem.FewerMembersBreakConsistency` | pkg/bcb/bcbmodule.go:136-144 | The bound is exact: with a faulty leader and F faulty members, any two correct nodes can be made to deliver any two payloads on certificates with (N+F)/2 different members. |
| `BcbSystem.StartIsEchoedBy` | pkg/bcb/bcbmodule.go:87-103 | Any correct nodes that have not sent an echo can be made to echo any payload of a faulty leader, without changing the others. |
| `BcbSystem.CertificateDelivers` | pkg/bcb/bcbmodule.go:136-152 | A certificate with enough valid signatures that a faulty node can put together makes any correct node deliver that has not delivered. |
| `BcbSystem.RepeatedSignerDelivers` | pkg/bcb/bcbmodule.go:136-152 | A certificate that lists one signer often enough is accepted. |
| `BcbSystem.RunKeepsInv` | pkg/bcb/bcbmodule.go:76-152 | Every run keeps: a correct node releases at most one echo signature, and every accepted certificate is made of signatures over the delivered data. |
| `Bcb.Module.constructor` | pkg/bcb/bcbmodule.go:66-74 | A new instance has sent and received nothing. |
| `Bcb.Module.UponBroadcastRequest` | pkg/bcb/bcbmodule.go:77-84 | Only the leader broadcasts, to all nodes; missing data is sent as empty and leaves no request. |
| `Bcb.Module.UponStartMessage` | pkg/bcb/bcbmodule.go:87-95 | A start message of the leader is signed unless an echo was sent. |
| `Bcb.Module.UponSignResult` | pkg/bcb/bcbmodule.go:97-103 | At most one echo is ever sent. |
| `Bcb.Module.UponEchoMessage` | pkg/bcb/bcbmodule.go:106-114 | The leader verifies one echo per node, against its own request. |
| `Bcb.Module.UponSigVerified` | pkg/bcb/bcbmodule.go:116-121 | Only valid echo signatures are collected. |
| `Bcb.Module.UponStateUpdates` | pkg/bcb/bcbmodule.go:124-133 | More than (N+F)/2 collected echoes lead to one FINAL message with all of them. |
| `Bcb.Module.UponFinalMessage` | pkg/bcb/bcbmodule.go:136-144 | Which FINAL messages lead to a verification. |
| `Bcb.Module.UponSigsVerified` | pkg/bcb/bcbmodule.go:146-152 | The data of a verified certificate is delivered once. |
| `Bcb.KeysAndValues` | pkg/bcb/bcbmodule.go:127-130 | The certificate lists each collected signer once, with its own signature. |
| `BatchFetcher.TimingIndependence` | pkg/batchfetcher/batchfetcher.go:75-206 | Whatever the order in which answers arrive, the output since the last restore, including the progress submitted for checkpoints, is a prefix of one canonical output determined by the ordering events and the contents; it is all of it once every request is answered. |
| `BatchOutput.OutputFollowsOrder` | pkg/batchfetcher/outputqueue.go:21-37 | What goes on to the application since the last restore are the events that came in, in order, each as it came, certificates as those of their transactions that are new. Nothing is held back: the first missing event waits for the answer to its own request. |
| `BatchOutput.ProgressIsExact` | pkg/batchfetcher/batchfetcher.go:75-153 | In every run, whatever the answers: every progress handed to the mempool or to a checkpoint stands for exactly the restored transactions and those delivered before it, sorted and with the watermark as high as it can be. |
| `BatchOutput.RestoringSkipsDelivered` | pkg/batchfetcher/batchfetcher.go:157-178 | So a node restored from the progress that another one submitted delivers nothing that was delivered or restored there before. |
| `BatchOutput.SideEventsAndRequests` | pkg/batchfetcher/batchfetcher.go:75-153 | In every run: the progress goes to the mempool right before every new epoch, to the checkpoint module right before every snapshot request, and never otherwise; the transactions of every certificate that is not empty were requested, once, in order, and under a number of their own. |
| `BatchOutput.NamesCurrentEpoch` | pkg/batchfetcher/batchfetcher.go:75-153 | Every side event and request names the epoch that the batch fetcher was last told when it left. |
| `BatchOutput.RestoresArePassedOn` | pkg/batchfetcher/batchfetcher.go:157-178 | The application is told of every restore, in order; the other rows are about everything output since the last one. |
| `BatchFetcher.SameOrderSameOutput` | pkg/batchfetcher/batchfetcher.go:97-102 | Two nodes that see the same ordering events, with answers in different orders, have output of which one is a prefix of the other. |
| `BatchFetcher.PlayKeepsInv` | pkg/batchfetcher/batchfetcher.go:75-206 | Every run keeps: output so far followed by what the queue would emit is the canonical output. |
| `BatchFetcher.FlushIsCanonical` | pkg/batchfetcher/outputqueue.go:21-37 | Flushing moves canonical output from the queue to the outside and stops at the first unanswered item. |
| `BatchFetcher.AnswersDoNotOrder` | pkg/batchfetcher/batchfetcher.go:185-192 | The order of the output is determined by the ordering protocol's events alone. |
| `BatchDedup.AtMostOnce` | pkg/batchfetcher/batchfetcher.go:54-72 | In every run, since the last restore each (client, number) is delivered at most once, none that the restored progress contains, and the progress kept is the restored one plus exactly what was delivered. |
| `BatchDedup.FilterMeans` | pkg/batchfetcher/batchfetcher.go:54-72 | The filter keeps exactly the transactions not delivered before and not preceded in the batch by one with the same client and number. |
| `BatchDedup.FirstOccurrencesDistinct` | pkg/batchfetcher/batchfetcher.go:54-72 | Those have different keys, and are all the new keys of the batch. |
| `BatchFetcherModule.FilterDuplicates` | pkg/batchfetcher/batchfetcher.go:54-72 | The loop over a batch adds every transaction to the progress and keeps the new ones. |
| `BatchFetcherModule.Module.constructor` | pkg/batchfetcher/batchfetcher.go:43-48 | A new module has an empty queue. |
| `BatchFetcherModule.Module.EmitEvent` | pkg/batchfetcher/batchfetcher.go:75-151 | The output hooks: batches are filtered; collected progress goes out before a new epoch or a snapshot request. |
| `BatchFetcherModule.Module.RunFlush` | pkg/batchfetcher/outputqueue.go:21-37 | The loop emits from the front until an item without event. |
| `BatchFetcherModule.Module.EnqueueEvent` | pkg/batchfetcher/batchfetcher.go:200-206 | An event is queued behind the others and the queue flushed. |
| `BatchFetcherModule.Module.UponNewEpoch` | pkg/batchfetcher/batchfetcher.go:75-86 | The epoch number changes at once, the event passes through the queue. |
| `BatchFetcherModule.Module.RequestTransactions` | pkg/batchfetcher/batchfetcher.go:94-126 | A place in the queue is reserved by an item that is tracked from then on, and the transactions are requested. |
| `BatchFetcherModule.Module.UponDeliverCert` | pkg/batchfetcher/batchfetcher.go:90-129 | A padding certificate becomes an empty batch, another one a request. |
| `BatchFetcherModule.Module.UponSnapshotRequest` | pkg/batchfetcher/batchfetcher.go:133-153 | The request passes through the queue. |
| `BatchFetcherModule.Module.UponOtherEvent` | pkg/batchfetcher/batchfetcher.go:200-206 | Other events pass through the queue unchanged. |
| `BatchFetcherModule.Module.UponRestoreState` | pkg/batchfetcher/batchfetcher.go:157-178 | A restore replaces epoch, progress and queue and passes at once. |
| `BatchFetcherModule.Module.UponProvideTransactions` | pkg/batchfetcher/batchfetcher.go:185-192 | An answer for any item ever issued fills that item if it is still queued, and nothing else. |
| `ClientProgress.AddMeans` | pkg/clientprogress/clientprogress.go:29-34 | Adding puts exactly one transaction into the represented set. |
| `ClientProgress.CollectKeepsSet` | pkg/clientprogress/clientprogress.go:36-42 | Garbage collection leaves the represented set unchanged. |
| `ClientProgress.CollectMeans` | pkg/clientprogress/deliveredtxs.go:73-81 | For one client: same set, the watermark does not decrease and is not itself delivered. |
| `ClientProgress.PbRoundTrip` | pkg/clientprogress/clientprogress.go:44-60 | Serialising and loading gives back the same progress. |
| `ClientProgress.PbIsNormalised` | pkg/clientprogress/deliveredtxs.go:33-93 | Loading and serialising again keeps the set and sorts it without repetitions. |
| `ClientProgress.NormalIsCanonical` | pkg/clientprogress/deliveredtxs.go:69-81 | After garbage collection, equal sets have equal representations, so equal snapshots. |
| `ClientProgress.TrackingKeepsSound` | pkg/clientprogress/deliveredtxs.go:56-81 | Adding and collecting keep the conditions under which collection normalises. |
| `ClientTrackers.DeliveredTXs.Empty` | pkg/clientprogress/deliveredtxs.go:25-31 | A new tracker has nothing delivered. |
| `ClientTrackers.DeliveredTXs.FromPb` | pkg/clientprogress/deliveredtxs.go:33-40 | The loop loads the listed numbers. |
| `ClientTrackers.DeliveredTXs.Contains` | pkg/clientprogress/deliveredtxs.go:43-51 | Below the watermark or in the set. |
| `ClientTrackers.DeliveredTXs.Add` | pkg/clientprogress/deliveredtxs.go:56-67 | Adds a number; true exactly if it was not contained before. |
| `ClientTrackers.DeliveredTXs.GarbageCollect` | pkg/clientprogress/deliveredtxs.go:73-81 | The loop absorbs the contiguous prefix into the watermark. |
| `ClientTrackers.DeliveredTXs.Pb` | pkg/clientprogress/deliveredtxs.go:83-93 | The serialised form lists the set in ascending order. |
| `ClientTrackers.Clients.constructor` | pkg/clientprogress/clientprogress.go:15-20 | No clients at first. |
| `ClientTrackers.Clients.Contains` | pkg/clientprogress/clientprogress.go:22-27 | False for unknown clients. |
| `ClientTrackers.Clients.Add` | pkg/clientprogress/clientprogress.go:29-34 | Creates a missing tracker; true exactly if the transaction is new. |
| `ClientTrackers.Clients.GarbageCollect` | pkg/clientprogress/clientprogress.go:36-42 | Collects every tracker and reports the new watermarks. |
| `ClientTrackers.Clients.Pb` | pkg/clientprogress/clientprogress.go:44-50 | Serialises every tracker. |
| `ClientTrackers.Clients.LoadPb` | pkg/clientprogress/clientprogress.go:52-60 | Replaces all trackers by the loaded ones. |
| `MessageBuffer.HoldsLongestFittingSuffix` | pkg/messagebuffer/messagebuffer.go:122-165 | After any stores and non-growing resizes the buffer is exactly the longest suffix of the accepted messages that fits the capacity. |
| `MessageBuffer.RetainedExactly` | pkg/messagebuffer/messagebuffer.go:122-165 | For all runs, growing resizes included: the buffer is a suffix of the accepted messages, and a message is still there exactly if it and the later ones have fitted together ever since. |
| `MessageBuffer.GrowingIsDifferent` | pkg/messagebuffer/messagebuffer.go:148-165 | A growing resize does not bring evicted messages back, so the longest-suffix property needs non-growing resizes. |
| `MessageBuffer.FitIsLongest` | pkg/messagebuffer/messagebuffer.go:133-138 | Removing from the front until the rest fits leaves the longest suffix that fits. |
| `MessageBuffer.IterateSorts` | pkg/messagebuffer/messagebuffer.go:186-217 | Going over the buffer leaves exactly the messages for the future and hands over exactly the current ones; past and invalid ones are dropped. |
| `MessageBuffer.IterateKeepsOrder` | pkg/messagebuffer/messagebuffer.go:186-217 | Both in the order in which they were stored. |
| `MessageBuffer.Buffer.constructor` | pkg/messagebuffer/messagebuffer.go:73-83 | A new buffer is empty. |
| `MessageBuffer.Buffer.Store` | pkg/messagebuffer/messagebuffer.go:122-144 | An oversized message is refused and changes nothing; otherwise the front is evicted as far as needed and the message appended. The loop never touches an empty list. |
| `MessageBuffer.Buffer.Resize` | pkg/messagebuffer/messagebuffer.go:151-164 | The front is evicted as far as needed; the loop reaches an empty list, and panics, exactly for negative capacities. |
| `MessageBuffer.Buffer.RemoveFront` | pkg/messagebuffer/messagebuffer.go:168-173 | Removing keeps the recorded size the sum of the stored sizes. |
| `MessageBuffer.Buffer.Visit` | pkg/messagebuffer/messagebuffer.go:197-215 | What happens to one message during iteration. |
| `MessageBuffer.Buffer.Iterate` | pkg/messagebuffer/messagebuffer.go:186-217 | Exactly the future messages stay and exactly the current ones are applied, both in order. |
| `FactoryTheorems.HandedInArrivalOrder` | stdmodules/factory/factory.go:81-173 | In every run, the events handed to the submodules under one identifier are a subsequence of those that arrived for it, in arrival order, without repetitions. |
| `FactoryTheorems.EarlyRightAfterInit` | stdmodules/factory/factory.go:240-265 | A new submodule is given Init and then at once, in arrival order, all earlier events for it that were neither handed to a predecessor nor lost. |
| `FactoryTheorems.EventsAreConserved` | stdmodules/factory/factory.go:128-210 | Every event is either on its way (handed, buffered, pending) or lost, and lost only if it is no message, larger than the buffer, or evicted: at one operation of the recorded history of the buffer, whose replay gives the buffer, it was dropped because it, the messages after it in the buffer, all different, and the new one exceeded the capacity. |
| `FactoryTheorems.NewIsDifferent` | stdmodules/factory/factory.go:175-210 | In every reachable state the buffered messages and the next early one are all different. |
| `FactoryTheorems.RunKeepsInv` | stdmodules/factory/factory.go:81-293 | Every run keeps order, conservation, and that nothing is buffered for a live submodule. |
| `FactoryTheorems.FirstKeepsInv` | stdmodules/factory/factory.go:175-210 | Taking up one early event keeps these. |
| `FactoryTheorems.CreateKeepsInv` | stdmodules/factory/factory.go:212-266 | Creating a submodule keeps these. |
| `FactoryRetention.LiveAreRetained` | stdmodules/factory/factory.go:212-293 | In every run, every live submodule is listed under a retention index not below the current one. |
| `FactoryRetention.IndexNeverDecreases` | stdmodules/factory/factory.go:268-290 | The current retention index never decreases. |
| `FactoryLifetimes.LiveIff` | stdmodules/factory/factory.go:212-293 | Over every run: a submodule exists exactly if it was created with a retention index not below the current one, and no index under which it was ever created has been collected since. |
| `FactoryLifetimes.ListedIff` | stdmodules/factory/factory.go:231-238 | What is listed under an index not collected yet is exactly what was created under it. |
| `FactoryLifetimes.LiveHaveEverything` | stdmodules/factory/factory.go:131-164 | Whenever events have been distributed, every live submodule has been handed all events that arrived for it and were not lost. |
| `FactoryLifetimes.LostOnlyWhileAway` | stdmodules/factory/factory.go:168-210 | No event is lost while its submodule exists. |
| `FactoryLifetimes.FailsIff` | stdmodules/factory/factory.go:212-230 | A run fails exactly at the creation of a submodule outside the factory, or with parameters the generator rejects and a current retention index. |
| `FactoryRetention.WithoutReuseLiveIsListed` | stdmodules/factory/factory.go:231-238 | If no identifier is used twice, the live submodules are exactly the listed ones. |
| `FactoryRetention.CollectKeepsExactlyUnless` | stdmodules/factory/factory.go:268-290 | Collecting an index keeps live and listed the same exactly if none of its submodules is also listed higher. |
| `FactoryRetention.ReuseRemovesListed` | stdmodules/factory/factory.go:231-238 | Reusing an identifier under a higher index lets collection of the lower one remove a listed submodule. |
| `FactoryModule.Module.constructor` | stdmodules/factory/factory.go:44-61 | A new factory is empty. |
| `FactoryModule.Module.BufferSubmoduleEvent` | stdmodules/factory/factory.go:119-126 | An event is appended to the pending ones of its destination. |
| `FactoryModule.Module.ApplySubmodulesEvents` | stdmodules/factory/factory.go:131-164 | The loop distributes all pending events, in the arbitrary order of the map, to live submodules or to the early buffer. |
| `FactoryModule.Module.BufferEarlyMsgs` | stdmodules/factory/factory.go:168-173 | The loop offers the events to the early buffer in order. |
| `FactoryModule.Module.StoreEarly` | stdmodules/factory/factory.go:175-210 | Only received messages are buffered, within the limit. |
| `FactoryModule.Module.DistributeTo` | stdmodules/factory/factory.go:138-151 | A live submodule is handed its events, those of another go to the early buffer. |
| `FactoryModule.Module.Start` | stdmodules/factory/factory.go:240-262 | Init first, then the buffered messages for it, which leave the buffer. |
| `FactoryModule.Module.CreateSubmodule` | stdmodules/factory/factory.go:212-266 | Errors for a foreign identifier or failing generator, nothing for a low retention index, otherwise a live listed submodule. |
| `FactoryModule.Module.CollectGarbage` | stdmodules/factory/factory.go:268-293 | The nested loops remove the listed submodules index by index. |
| `FactoryModule.Module.DeleteListed` | stdmodules/factory/factory.go:272-277 | Exactly the listed submodules are removed. |
| `FactoryModule.Module.ApplyNewSubmodule` | stdmodules/factory/factory.go:90-105 | Pending events are distributed before a submodule is created. |
| `FactoryModule.Module.ApplyGarbageCollect` | stdmodules/factory/factory.go:106-110 | Pending events are distributed before submodules are removed. |
| `ModuleIds.TopOfThen` | stdtypes/moduleid.go:25-39 | Extending a path keeps its top; extending a top-level identifier adds exactly the submodule. |
| `Node.RoutingIsFifo` | node.go:266-331 | Over every schedule, what was dispatched to a module followed by what is buffered for it is what came in for it, in order, and totalEvents is the number of buffered events. |
| `Node.PausedCanDispatch` | node.go:313-326 | While input is paused, more than ResumeInputThreshold events are buffered and some dispatch is possible. |
| `Node.PausedIff` | node.go:272-326 | Over every run: input is paused exactly if some step took the buffers above the pause threshold and they have been above the resume threshold ever since. |
| `Node.StaysPaused` | node.go:319-326 | So input that is paused stays so while the buffers hold more than the resume threshold. |
| `Node.ResumesIff` | node.go:319-326 | It resumes exactly at a dispatch that takes them to that threshold or below. |
| `Node.BatchesAreFull` | node.go:295-323 | A dispatch hands over the first MaxEventBatchSize events of one buffer, or all if there are fewer, and nothing else moves. |
| `Node.DispatchingResumes` | node.go:313-326 | Every dispatch makes progress: paused input resumes after at most totalEvents-ResumeInputThreshold dispatches. |
| `Node.PausesInTimeIff` | node.go:188-201 | In all runs input is paused whenever totalEvents exceeds PauseInputThreshold exactly if there are no more modules than the threshold, since Init events are added without the test. |
| `Node.RunKeepsInv` | node.go:241-338 | What every reaction of the loop keeps. |
| `Node.AddMeans` | eventbuffer.go:33-75 | Adding distributes events over the buffers in order, drops those without module, and counts the others. |
| `NodeLoop.EventList.Empty` | stdtypes/eventlist.go:22-24 | An empty list. |
| `NodeLoop.EventList.PushBack` | stdtypes/eventlist.go:46-53 | Appends one event. |
| `NodeLoop.EventList.PushBackList` | stdtypes/eventlist.go:69-82 | Appends a list. |
| `NodeLoop.EventList.Head` | stdtypes/eventlist.go:86-101 | A new list with the first up to n events; the original is unchanged. |
| `NodeLoop.EventList.RemoveFront` | stdtypes/eventlist.go:105-119 | Removes the first up to n events and returns how many; a negative n comes back as it is, or 0 from a list never used. |
| `NodeLoop.EventBuffer.constructor` | eventbuffer.go:16-30 | One empty buffer per module, none shared. |
| `NodeLoop.EventBuffer.Add` | eventbuffer.go:33-75 | The loop routes the events by the top of their destination. |
| `NodeLoop.EventBuffer.TakeBatch` | node.go:298-323 | The batch is a prefix of the buffer, removed from it and from the count. |
| `NodeLoop.Loop.constructor` | node.go:188-200 | The Init events are in the buffers before the loop starts. |
| `NodeLoop.Loop.Receive` | node.go:266-280 | New events are added; above the threshold input is paused. |
| `NodeLoop.Loop.Dispatch` | node.go:295-329 | A batch leaves one buffer; at or below the threshold input resumes. |
| `Simulation.TimeNeverDecreases` | pkg/testsim/runtime.go:84-186 | In every run in which Delay is called with non-negative durations by active processes that are not killed before they have queued their action, and nobody wakes or creates a process while the runtime takes a step, simulated time never decreases, and nothing is ever scheduled in the past. Reading the time and queueing are separate steps. |
| `Simulation.RunKeepsInv` | pkg/testsim/process.go:43-123 | In every run the queue is a heap holding every scheduled action once, nrActiveProcs is the number of active processes, and no killed process is active. |
| `SimWaking.WakesOnTime` | pkg/testsim/runtime.go:170-177 | Over every run: when an action has been taken and executed, its process is active unless it was killed; the time is then the one the process asked for in a call of Delay, and no queued action had an earlier one. |
| `SimWaking.ActiveIff` | pkg/testsim/process.go:22-123 | Over every run: a process is active exactly if it was created or woken when not killed, and neither stopped nor was killed since. |
| `SimWaking.QueuedIff` | pkg/testsim/runtime.go:147-177 | Over every run: an action is queued exactly if a Delay put it there and it was neither unscheduled nor taken since. |
| `SimWaking.KilledIff` | pkg/testsim/process.go:85-92 | Over every run: a process is killed exactly if it was killed at some step, and only once. |
| `SimWaking.FiresNext` | pkg/testsim/runtime.go:170-177 | With nobody active and something queued, taking and executing the next action sets the time to the least deadline and leaves active exactly the process of that action, or nobody if it was killed. |
| `SimWaking.RoundFires` | pkg/testsim/runtime.go:108-117 | So does a call of Step, from a standing start. |
| `SimWaking.RoundEnds` | pkg/testsim/runtime.go:108-117 | With nothing queued it returns without any effect. |
| `SimWaking.QuiescesIff` | pkg/testsim/runtime.go:180-186 | The runtime goes on exactly if nobody is active. |
| `SimWaking.DelaySleeps` | pkg/testsim/process.go:43-49 | A process that calls Delay sleeps with one more action queued, for the time asked for; it panics exactly if that time cannot be represented. |
| `Simulation.ComputeSettledIff` | pkg/testsim/runtime.go:125-131 | Reading the time for a delay keeps everything in the future exactly if the duration is not negative. |
| `Simulation.PopSettledIff` | pkg/testsim/runtime.go:170-172 | Taking the next action keeps everything in the future exactly if no process is about to queue an earlier one; time goes back exactly if something queued is in the past. |
| `Simulation.KilledInDelayTurnsBackIff` | pkg/testsim/process.go:43-49 | If the one active process is killed after it read the time and before it queues its action, the runtime goes on, and its step after next turns time back exactly if the delay ends before the action taken meanwhile. |
| `Simulation.KilledInDelayTurnsBack` | pkg/testsim/process.go:85-92 | A run without negative delays in which that happens. |
| `Simulation.NegativeDelayTurnsBack` | pkg/testsim/runtime.go:125-177 | A negative delay turns time back. |
| `Simulation.TimeAfterIsExact` | pkg/testsim/runtime.go:125-131 | 64-bit addition either gives the exact sum or panics. |
| `Simulation.UnscheduleTakesOut` | pkg/testsim/runtime.go:159-166 | Unscheduling takes out the one action meant and nothing else, and keeps the heap order. |
| `ActionHeap.PushKeeps` | pkg/testsim/runtime.go:147-156 | Pushing adds exactly one action and keeps the heap order. |
| `ActionHeap.PopKeeps` | pkg/testsim/runtime.go:170-172 | Popping takes out one action with the least deadline and keeps the heap order. |
| `ActionHeap.RemoveKeeps` | pkg/testsim/runtime.go:159-166 | Removing at a position takes out exactly the action there and keeps the heap order. |
| `ActionHeap.UpRestores` | pkg/testsim/action-queue.go:12-19 | Sifting up restores the order without losing an action. |
| `ActionHeap.DownRestores` | pkg/testsim/action-queue.go:12-19 | Sifting down restores the order without losing an action. |
| `ActionQueue.Queue.Swap` | pkg/testsim/action-queue.go:15-19 | Two actions change places and know it. |
| `ActionQueue.Queue.SiftUp` | pkg/testsim/action-queue.go:12-19 | The loop with swaps; every action still knows its position. |
| `ActionQueue.Queue.SiftDown` | pkg/testsim/action-queue.go:12-19 | The loop with swaps, and whether anything moved. |
| `ActionQueue.Queue.Push` | pkg/testsim/action-queue.go:21-25 | The heap push on objects. |
| `ActionQueue.Queue.Pop` | pkg/testsim/action-queue.go:27-33 | The heap pop on objects: the root leaves with index -1. |
| `ActionQueue.Queue.Remove` | pkg/testsim/runtime.go:159-166 | The heap removal on objects: the action at the position leaves with index -1. |
| `ActionQueue.Queue.DropLast` | pkg/testsim/action-queue.go:27-33 | The last action leaves the slice with index -1. |
| `SimRuntime.Process.constructor` | pkg/testsim/process.go:22-30 | A process before its activation. |
| `SimRuntime.Runtime.constructor` | pkg/testsim/runtime.go:67-75 | A new runtime. |
| `SimRuntime.Runtime.Activate` | pkg/testsim/process.go:107-114 | An inactive, living process becomes active and is counted; true exactly then. |
| `SimRuntime.Runtime.Deactivate` | pkg/testsim/process.go:116-123 | An active process becomes inactive and is no longer counted; true exactly then. |
| `SimRuntime.Runtime.Spawn` | pkg/testsim/process.go:22-30 | A new process is active. |
| `SimRuntime.Runtime.Kill` | pkg/testsim/process.go:85-92 | Deactivates for good; a second time panics. |
| `SimRuntime.Runtime.Schedule` | pkg/testsim/runtime.go:147-156 | An action with the deadline computed before is queued, and tracked from then on. |
| `SimRuntime.Runtime.Delay` | pkg/testsim/process.go:43-49 | Without interruption: reads the time, queues the wake-up and deactivates, or panics on a negative time. |
| `SimRuntime.Runtime.TimeAfter` | pkg/testsim/runtime.go:125-131 | The deadline of a delay, read without a lock; a negative one panics. |
| `SimRuntime.Runtime.Unschedule` | pkg/testsim/runtime.go:159-166 | Any action this runtime issued, in whatever state: if it is queued, exactly that action leaves; otherwise nothing changes. |
| `SimRuntime.Runtime.PopNext` | pkg/testsim/runtime.go:170-172 | The earliest action leaves the queue and time moves to its deadline; its process exists. |
| `SimRuntime.Runtime.Wake` | pkg/testsim/runtime.go:173-175 | Its process is activated, and the runtime waits again. |
| `SimRuntime.Runtime.SeesQuiescence` | pkg/testsim/runtime.go:180-186 | Waiting ends exactly when no process is active. |
| `SimRuntime.Runtime.Start` | pkg/testsim/runtime.go:84-86 | Running begins by waiting for quiescence. |
| `SimRuntime.Runtime.Return` | pkg/testsim/runtime.go:84-117 | Running ends only after quiescence was seen. |

## Left out

- PBFT: the orderers, their view change and catch-up; ISS sees them as an environment that delivers once per sequence number.
- Availability (multisig collector), mempool, transport, transaction receiver, event log, deployment tools: input and output, or no property of their own.
- ISS: the PushCheckpoint and EpochProgress handlers, the durations of timers and the digests of log entries.
- State transfer under the blacklist policy: the installed state is compared up to the choice of leaders; the runs that follow are compared for the Simple policy only, since suspicions made before the checkpoint arrives are not in it.
- Certificates.RunSyntacticCheck: the tests for nil parts of a checkpoint; values of the model have no nil parts.
- Checkpoint: answers nobody asked for (a hash, signature or verification result without a request) are not modelled.
- BatchFetcher.TimingIndependence: without the epoch numbers in the events to the mempool and checkpoint modules, which are read when an event is output and so depend on timing; BatchOutput.NamesCurrentEpoch says which they are.
- Factory: the outputs of submodules, their errors, and the concurrency of their ApplyEvents calls; what they are given and in which order is modelled.
- MessageBuffer: NewBuffers, which divides a capacity among nodes.
- Node: statistics, stopwatches, interceptors, debug mode and the import of events from active modules.
- Simulation: Stop, and what channels carry; a process woken or stopped by a channel operation is a step of its own.
- Generated code, protobuf and CBOR encodings, cryptography, threshold signatures, rendezvous, samples and command-line tools.
