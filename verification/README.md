# A model of the replicated znode server

A cluster of servers replicates a tree of znodes. One server leads: it checks every write against
an in-memory copy of the tree, numbers what it accepts with a zxid (epoch, count), broadcasts it,
and once enough followers have acknowledged it commits the head of its queue and broadcasts a
COMMIT that names no proposal. Followers commit the heads of their own queues. When the leader is
gone, a message around a ring elects the node with the largest (zxid, name), and the new leader
brings its followers up to date before it accepts anything.

The project models these parts and proves what they promise together.

- **Broadcast and handover.** `Messages`, `ZabNode` (what each handler does to one node),
  `ZabHandlers` (the same handlers as a class over mutable fields, each method proved to do what
  its counterpart in `ZabNode` says), `Cluster` (nodes, FIFO links, atomic steps, a sequence of
  terms). `FollowerSteps`, `LeaderSteps`, `TermSteps`, `ClusterSafety` and `NewTerm` carry the
  invariant; `ClusterRuns`, `ClusterTheorems`, `Durability` and `Handover` state what it gives;
  `Refusals` has the messages a node cannot use, `Failovers` the runs in which the code loses
  something.
- **Proposal log and sync.** `ProposalLog` (byte frames, length behind the content, read backwards),
  `SyncReply`, `AckCounter`, `Zxid`, `Channel`.
- **Election.** `Election`, `ElectionRuns` (passes, elections and ring entries as the handlers run
  them), and `ElectionSafety` for what it means to the broadcast.
- **Znodes.** `Znodes` (the leader's check and the replica's write), `ZnodeHandlers` (the same as
  classes), `ZnodeAgreement`, `ZnodeRuns`, `ZnodeTrees`, `ZnodeLoading` (the cache as it is loaded
  from any storage), `ZnodeStorage`, `ZnodeInvariants`, `Sessions`, `SeqNames`, `PubSub`, `Topics`,
  `Watch`, `Notices`, `Resumption`.
- **The whole system.** `Replication` puts the cluster and the znode tree together: verdicts come
  from the check, replicas apply what they commit, a new leader loads its cache from its storage.
  `StaleCaches` and `Reloads` have the runs in which that goes wrong.
- **Helpers.** `Wrappers`, `Collections`.

## How the cluster is modelled

A state has all nodes, the current leader, its followers, one FIFO link each way, and the
proposals the leader still had queued when its term began (`lag`). A step submits a write, moves
one message from a sending queue to the links, delivers one message, takes one message from the
leader's own queue, or elects a new leader. An election may happen at any moment, whatever is on
the links. The old leader and any follower not in the new ring never take a step again, so a
cluster of n nodes goes through at most about n/2 terms before no majority is left; the results hold for
every n and every number of steps.

What the code needs and does not check itself is a condition of a step, nothing more:

- counts and epochs stay below 65535 (`MayPropose`, `CanElect`), since 16-bit numbers wrap;
- the content of a proposal is not empty and below 4 GiB (`MayPropose`), since an empty record
  cannot be read back (`ReadInvertsAppend`);
- a majority of all nodes takes part in an election, and the elected node has the highest zxid
  (`Wins`), as the election demands;
- no follower of a new leader is stuck in sync mode at the leader's own zxid (`CanElect`). The code
  does not rule this out: `StuckIsReached` has a run to such an election, `StuckFollowerFails` what
  happens to the follower then, and `StaleSyncModeBreaksTerm` that it happens to such followers
  only. The condition is exact: an election by the rules keeps the invariant if and only if it meets
  `CanElect` (`StartTermSafe`), and so a run of the code keeps it throughout if and only if all its
  steps are steps of the model (`RunSafeExactly`).

In `Replication` what the code does (`Lawful`) is kept apart from what the main result assumes of
the requests and elections (`Tame`).

## What fails, and exactly when

- **Committed proposals can be lost.** A follower commits before any quorum in the flush at a
  NewLeader message and in sync mode. What it committed stays at the start of every later leader's
  log, and of the log of everybody who could win an election, exactly if fewer than a majority of
  all nodes are followers that lack it (`SurvivesExactly`, `FewLackExactly`). Seven nodes a to g, a
  leads and its proposals reach b only; a crashes, b is elected by b to g, c syncs and commits; b and
  c crash, d is elected by d to g with an empty log and gives the same zxid to another proposal
  (`CommittedAndLost`, for any cluster of at least seven nodes).
- **A follower can be stuck in sync mode.** Six nodes a to f: b has two proposals of a and is
  elected, c and d each receive the first of them only, b crashes, d is elected: c looks up to
  date, stays in sync mode, commits the next proposal before its COMMIT and exits on it
  (`StuckIsReached`, `StuckFollowerFails`).
- **A leader that starts with a queue.** It commits, at each quorum, an older proposal than the one
  acknowledged; it is the same one exactly if the queue was empty (`QuorumCommitsHead`). Its cache
  misses what is queued; an election keeps the cache equal to the log exactly if folding the queue
  into its storage changes nothing (`ElectFaithful`). Otherwise an accepted request can fail on a
  replica, which then stops committing: a delete of /a is queued, the new leader accepts a create
  of /a/b (`AcceptedCreateFails`); or an update is lost: two updates of one znode are accepted for
  the same version (`QueuedUpdateIsLost`).
- **An update of a znode with children cuts them off.** `setdata` and `watch_trigger` replace the
  stored znode as a whole, and a client's request carries no children: create a, create a/b,
  setdata a. The entry a/b stays in storage, but the next leader does not load it
  (`ForgetsChildren`). In a run of the system from any storage with a child, one such update that a
  majority commits and a failover suffice, although the new leader has committed everything
  (`FailoverForgets`). Storage loads as a whole exactly if every znode is named in its parent's list
  and every list names existing znodes (`LoadedIsAll`); an update keeps it so exactly if it names the
  same children (`UpdateLoads`; `UpdateTidy` for storage in which each child is listed once). On a
  topic the next message after that is number 1 again, and its file overwrites the first message's
  (`TopicForgets`, and in a run of the system `FailoverRestartsTopic`).
- A `setdata` also stores version -1 literally (`UpdateAgrees`, `UpdatesAgreeExactly`).
- **Ending a session after one of its znodes was deleted.** A client's delete does not take the znode
  off the session's list; the end of the session is still accepted, and fails on every replica, which
  then stops committing (`DeletedBeforeEnd`); `WriteEnds` has the exact condition. The check reads the
  list from the leader's storage, so it forgets only what that storage has already (`CheckEnds`).
- **A create that fails for its session** has already added the child to its parent's list, and the
  storage no longer loads as a whole (`FailedCreateLeaves`).
- **Watches lost when a client comes back.** Picking up a session shortens its watched paths but not
  their versions, so later versions are compared with the wrong paths: two watches, the first one
  changed, and the second return forgets the other one without a word (`LostOnSecondReturn`; exactly
  when in `ResumeAsks`, `ResumedAgain`). A client whose watched znodes all changed is not told
  (`WhenTold`).
- A `sync` request is accepted by the leader, but no replica knows it: it is the one accepted
  kind besides `delete_session` that fails in `Write` (`AcceptedIsWritten`).
- A delete removes one path from the cache and a subtree from storage: they agree exactly for
  childless znodes (`DeleteAgrees`, `DeleteWellFormed`).
- A refused `watch_trigger` keeps the updates before the refused one; they leave the cache as it was
  exactly if all of them are unconditional and the last one of each path repeats the data
  (`RefusalLeavesCache`). Two triggers for one session in one write are always refused at the second
  one (`TwoTriggersClash`).
- The leader panics on a sequential create under a missing parent and on a few other requests
  (`WhenCheckPanics`).
- A restart from a store that has only epoch 0, or whose newest record has no content, forgets the count
  (`RestoredIsNewest`).
- Sequence numbers stop being fresh at the largest 64-bit number (`SequentialIsFresh`), and a topic
  with a bare number among its children makes subscribers wait for the wrong name
  (`AwaitedIsNext`).

## Model

| member | source | states |
|---|---|---|
| ClusterTheorems.CommittedEverywhere | internal/Proposals/proposals.go:232-276 | In every reachable state each node of the term has committed a prefix of its own log and of the leader's, has never met a COMMIT with an empty queue, and once the term is open has committed nothing undecided |
| ClusterTheorems.Agreement | internal/Proposals/proposals.go:266-276 | In every reachable state any two nodes' committed sequences are prefixes of one another, although COMMIT carries no zxid |
| ClusterTheorems.DecidedIsDurable | internal/Proposals/proposals.go:343-346 | What is decided is in the logs of a majority of all nodes |
| Durability.LeaderCompleteness | internal/election/election.go:143-158 | Over any further steps and elections, the log of whoever leads starts with what was decided, and with what any node committed if few followers lacked it; decided sequences only grow |
| Durability.AgreementAcrossTerms | internal/Proposals/proposals.go:232-276 | What a node committed and few followers lacked, and what any node has committed in any later state, are prefixes of one another |
| Durability.SurvivesExactly | internal/Proposals/proposals.go:278-312 | Proposals in the leader's log survive, in that no later leader and nobody who later meets what an election demands misses them, exactly if fewer than a majority are followers that lack them; if more do, and none of those is in sync mode or out of epochs, a run leads to a leader without them |
| Durability.FewLackExactly | internal/election/election.go:143-158 | Every possible winner among the followers has a sequence of proposals exactly if fewer than a majority of all nodes are followers that lack it |
| Durability.CommittedInOpenTerm | internal/Proposals/proposals.go:268-276 | What a node committed in an open term, few followers lack |
| Failovers.CommittedAndLost | internal/Proposals/proposals.go:239-256 | In every cluster of at least seven nodes a run ends in which a follower committed a proposal in sync mode that no later leader has, and whose zxid another proposal gets |
| ClusterRuns.FirstElection | internal/election/election.go:143-158 | Among nodes that have just started any majority can elect any of its members, so runs exist for every cluster of at least two nodes |
| ClusterRuns.StepSafe | internal/Proposals/proposals.go:155-204 | Every step the code takes keeps the cluster invariant, an election exactly if it leaves nobody stuck in sync mode and epochs have not run out; within a term a step only extends logs, quorums and openness |
| ClusterRuns.RunSafe | internal/Proposals/subroutines.go:28-59 | Every state a run of the model reaches satisfies the invariant |
| ClusterRuns.RunSafeExactly | internal/Proposals/subroutines.go:28-59 | A run of the code, whoever it elects by the rules, satisfies the invariant throughout exactly if every election in it leaves nobody stuck and has an epoch left |
| NewTerm.StartTermSafe | internal/Proposals/proposals.go:121-150 | Right after the announcement of a majority's winner the invariant holds exactly if the winner has an epoch left and nobody is stuck in sync mode at its zxid |
| NewTerm.HigherIdHasMore | internal/Proposals/zxidCounter.go:29-34 | Of two nodes with prefixes of one log, the one with the larger zxid has the longer log, and equal zxids mean equal logs |
| ClusterSafety.DeliverDownSafe | internal/Proposals/proposals.go:207-224 | Delivering any message from the leader keeps the invariant of the whole cluster |
| ClusterSafety.DeliverUpSafe | internal/Proposals/proposals.go:317-347 | Delivering any message to the leader keeps the invariant of the whole cluster |
| FollowerSteps.FollowerStep | internal/Proposals/proposals.go:207-312 | Any message from the leader keeps a follower's log a prefix of the leader's, its queue ahead of the COMMITs under way, its acknowledgements in log order, and its zxid that of its last entry |
| FollowerSteps.CommitEffect | internal/Proposals/proposals.go:268-276 | A COMMIT that reaches a follower in step finds a queued proposal and moves exactly the head |
| FollowerSteps.AnnouncementEffect | internal/Proposals/proposals.go:278-312 | A NewLeader message commits everything queued, then is acknowledged exactly if the follower has the leader's whole log; otherwise the follower asks for the rest and enters sync mode |
| FollowerSteps.CatchUpEffect | internal/Proposals/proposals.go:239-256 | In sync mode an entry is saved and committed at once; exactly the last missing one ends the mode and acknowledges NewLeader |
| FollowerSteps.ReceiveEffect | internal/Proposals/proposals.go:257-263 | In normal operation the next entry of the leader's log is acknowledged, saved and queued, and the follower stays consistent |
| LeaderSteps.QuorumInOrder | internal/Proposals/proposals.go:317-347 | An acknowledgement completes a quorum exactly if it brings the followers that have the proposal to half the nodes, and then all earlier proposals of the term have one and no later one has |
| LeaderSteps.AckStep | internal/Proposals/proposals.go:343-346 | An acknowledgement adds one follower to the holders of one proposal; the leader either stays as it is or commits one more and broadcasts one COMMIT |
| LeaderSteps.ProposeStep | internal/Proposals/proposals.go:400-421 | An accepted write extends the leader's log by one dense entry, which is broadcast, and leaves the quorums as they are |
| LeaderSteps.NewLeaderAckStep | internal/Proposals/proposals.go:319-342 | Exactly the last outstanding NewLeader acknowledgement opens the term and moves all held writes to the processing queue in order; it never commits |
| LeaderSteps.SyncStep | internal/Proposals/proposals.go:422-496 | A follower asking from its position in the leader's log is sent exactly the rest of that log |
| TermSteps.NextAck | internal/Proposals/proposals.go:257-263 | The next acknowledgement on a link is for the proposal right after those already acknowledged, or for NewLeader before the term is open |
| TermSteps.ArrivalKeeps | internal/Proposals/proposals.go:155-204 | Any message a follower sent keeps the invariant of the term at the leader |
| Handover.QuorumCommitsHead | internal/Proposals/proposals.go:343-346 | An acknowledgement that lets the leader commit is for the first undecided proposal; the committed head is that proposal exactly if the leader began its term with an empty queue |
| Handover.HeldUntilOpen | internal/Proposals/proposals.go:177-185 | While a sync is outstanding nothing is proposed, broadcast or committed; writes are held; when the last acknowledgement arrives all of them move to the processing queue, once each, in arrival order |
| Handover.OwnWritesHeld | internal/Proposals/proposals.go:177-185 | The leader's own writes wait in the same way |
| Handover.HeldOverRun | internal/Proposals/proposals.go:177-185 | Over any run of a term until it opens the held writes are those held before and exactly those that arrived, in arrival order, while nothing is proposed or committed; at its opening they all move to the processing queue, once |
| Handover.HeldSinceElection | internal/Proposals/proposals.go:319-342 | Counted from the election, what is held and moves is exactly what arrived since |
| Handover.SyncFinishHasLog | internal/Proposals/proposals.go:246-256 | A follower that signals SyncFinish has committed exactly the leader's log up to NewLeader, with nothing queued |
| Handover.FinishWithLog | internal/Proposals/proposals.go:288-300 | SyncFinish is signalled exactly when a follower stops being behind, and it never falls behind again in the term |
| Handover.StaleSyncModeBreaksTerm | internal/Proposals/proposals.go:288-300 | Any node at the new leader's zxid commits the next proposal before its COMMIT and exits on that COMMIT exactly if it was still in sync mode |
| Failovers.StuckIsReached | internal/Proposals/proposals.go:305-311 | A run leads to followers of which one wins the election, meeting everything the election demands, while another is in sync mode at the same zxid |
| Failovers.StuckFollowerFails | internal/Proposals/proposals.go:288-300 | After that election the new leader's announcement and its first proposal make the stuck follower commit before any COMMIT, and the COMMIT makes it exit |
| ZabHandlers.Server.SendNewLeader | internal/Proposals/proposals.go:121-150 | Opens a new epoch and announces the old zxid, or repeats an unfinished announcement, or starts at once if nothing was ever proposed |
| ZabHandlers.Server.ProcessStateChangeProposal | internal/Proposals/proposals.go:232-264 | The whole new state after a state change, in sync mode and outside it |
| ZabHandlers.Server.ProcessCommitProposal | internal/Proposals/proposals.go:268-276 | The head of the queue is committed; an empty queue stops the process |
| ZabHandlers.Server.FlushProposals | internal/Proposals/proposals.go:282-286 | The loop commits everything queued, in order |
| ZabHandlers.Server.ProcessNewLeaderProposal | internal/Proposals/proposals.go:278-312 | The whole new state after a NewLeader message |
| ZabHandlers.Server.ProcessProposal | internal/Proposals/proposals.go:207-224 | Proposals from anyone but the coordinator change nothing; an unknown kind stops the process |
| ZabHandlers.Server.ProcessACK | internal/Proposals/proposals.go:317-347 | The whole new state after an acknowledgement of either kind |
| ZabHandlers.Server.UnloadHoldingQueue | internal/Proposals/subroutines.go:75-81 | The loop moves every held message to the end of the processing queue, in order |
| ZabHandlers.Server.ProcessWrite | internal/Proposals/proposals.go:376-421 | A denied write is sent back unless it is the leader's own; an accepted one is counted, queued, saved and broadcast under the next count |
| ZabHandlers.Server.SendMissing | internal/Proposals/proposals.go:445-495 | The nested loops over epochs and stored proposals send exactly the reply specified over the saved log |
| ZabHandlers.Server.ProcessSync | internal/Proposals/proposals.go:422-496 | A sync request is answered from the epoch files, or refused if its epoch is ahead |
| ZabHandlers.Server.ProcessZabMessage | internal/Proposals/proposals.go:155-204 | The whole new state after any message |
| ZabHandlers.Server.ProcessNext | internal/Proposals/subroutines.go:48-59 | The message processor takes the oldest message of the queue |
| ZabHandlers.Server.QueueSend | internal/Proposals/proposals.go:553-576 | A message to the node itself joins its own processing queue, any other its sending queue |
| ZabHandlers.Server.SendWriteRequest | internal/Proposals/proposals.go:101-108 | A write goes to the coordinator, without the network if that is the node itself, and changes nothing else |
| Refusals.DeniedGoesBack | internal/Proposals/proposals.go:376-398 | A denied write goes back to the server it came from, under its number and with the check's answer; the leader's own is dropped; nothing else happens |
| Refusals.DenialArrives | internal/Proposals/proposals.go:194-198 | There it is reported as failed |
| Refusals.SubmittedUnchanged | internal/Proposals/proposals.go:101-108 | A server's write goes to its coordinator under its number |
| Refusals.StrangersChangeNothing | internal/Proposals/proposals.go:207-211 | What anybody but the coordinator proposes, commits or announces changes nothing |
| Refusals.StaleAckChangesNothing | internal/Proposals/proposals.go:319-342 | An acknowledgement of NewLeader counts only while requests are not processed and only for the current sync |
| Refusals.NoticeChangesNothing | internal/Proposals/proposals.go:200-202 | The notice that a sync could not be answered changes nothing |
| Refusals.WhenNodeStops | internal/Proposals/proposals.go:207-276 | Exactly the messages on which a node exits, and that it sends nothing then |
| Refusals.AnnouncesAgain | internal/Proposals/proposals.go:121-150 | An unfinished announcement is repeated in the same epoch and all answers are awaited again; where nothing was ever proposed requests are processed at once |
| SyncReply.ReplyIsMissingSuffix | internal/Proposals/proposals.go:422-496 | A reply to a follower that has the first n entries carries exactly the remaining state changes, in order, across all epochs, and nothing but those and error notices |
| SyncReply.ReplyNotices | internal/Proposals/proposals.go:422-496 | A follower whose epoch is ahead gets one error notice and nothing else; any other gets one notice for each earlier epoch in which nothing was saved |
| SyncReply.WellSavedDense | internal/Proposals/proposals.go:400-421 | Saving in protocol order leaves, per epoch, state changes with consecutive counts from 1 |
| SyncReply.LastIdOrder | internal/Proposals/messageTypes.go:111-113 | Prefixes of one log are ordered by length exactly as their last zxids are |
| AckCounting.QuorumReportedOnce | internal/Proposals/ackCounter.go:35-49 | With n nodes and at most one acknowledgement per follower, a quorum is reported once, exactly when floor(n/2) acknowledgements are in, and never again despite the reset to 0 |
| AckCounting.UnknownNeverReported | internal/Proposals/ackCounter.go:38-41 | A zxid that was never stored, such as NewLeader's, never completes a quorum |
| AckCounting.AckCounter.IncrementOrRemove | internal/Proposals/ackCounter.go:35-49 | The new counter and whether the threshold was passed |
| AckCounting.AckCounter.StoreNew | internal/Proposals/ackCounter.go:52-56 | A new entry starts at 1, the leader's own acknowledgement |
| ProposalLog.ReadInvertsAppend | internal/Proposals/proposalSaving.go:48-101 | After saving any proposals, reading k of them back gives the last min(k, n) in the order saved exactly if each of those has content, and an error otherwise, whatever bytes the contents hold |
| ProposalLog.StepBackOverFrame | internal/Proposals/proposalSaving.go:69-88 | One backward step over a frame finds exactly its body, whatever precedes and follows it |
| ProposalLog.FrameLayout | internal/Proposals/proposalSaving.go:155-177 | A frame is the kind, the epoch, the count, the content and the length of these, numbers low byte first |
| ProposalLog.SeekBeforeStart | internal/Proposals/proposalSaving.go:69-97 | A length that points before the start of the file ends the reading with what the first bytes decode to, or with an error |
| ProposalLog.ReadHighestRepresents | internal/Proposals/proposalSaving.go:124-131 | The highest count read from an epoch's file is that of the last proposal saved in the epoch, if it has content, and an error otherwise |
| ProposalLog.RestoredIsNewest | internal/Proposals/proposalSaving.go:103-122 | A restart resumes from the newest record of the highest epoch exactly if that epoch is not 0 and the record has content, or the record has count 0; otherwise from count 0 |
| ProposalLog.ProposalStore.SaveProposal | internal/Proposals/proposalSaving.go:26-45 | The frame goes to the end of its epoch's file, and the files go on holding exactly what was saved |
| ProposalLog.ProposalStore.ProposalToBytes | internal/Proposals/proposalSaving.go:155-177 | The frame is header, content, and the length of both |
| ProposalLog.ProposalStore.ReadFrames | internal/Proposals/proposalSaving.go:65-97 | The loop over a moving cursor reads frame by frame what the specification of the file says; the cursor stays within the file |
| ProposalLog.ProposalStore.ReadProposals | internal/Proposals/proposalSaving.go:48-101 | The latest proposals of an epoch in the order they were saved, or an error if the epoch has no file or a frame does not decode |
| ProposalLog.ProposalStore.RestoreZxid | internal/Proposals/proposalSaving.go:103-122 | The loop over the directory listing finds the highest epoch and its count |
| Zxid.ComposeIsShiftOr | internal/Proposals/messageTypes.go:111-120 | On 32-bit vectors the shift-and-or form of a zxid is the sum used here, and shift and mask undo it |
| Zxid.ComposeOrder | internal/Proposals/messageTypes.go:111-113 | zxids are ordered as (epoch, count) pairs are |
| Zxid.NextCountIsLarger | internal/Proposals/zxidCounter.go:37-44 | The next zxid of an epoch is larger exactly while the count does not wrap |
| Zxid.Uint32RoundTrip | internal/Proposals/messageTypes.go:122-129 | Four bytes written are four bytes read, whatever follows |
| Election.PassVisitsLive | internal/election/election.go:92-126 | A message started anywhere comes back to its initiator exactly if another node is alive, after visiting every live node once in ring order, and carries each one's zxid at the same position |
| Election.RotationOfRotation | internal/election/election.go:60-71 | Every node sees the ring as a rotation of the same cycle |
| Election.GetCorrespondingValue | internal/election/election.go:127-141 | The loop finds a name that no other (zxid, name) pair beats; empty or unequal lists panic |
| Election.DiscoveryElects | internal/election/election.go:143-158 | A discovery announces the live node with the largest (zxid, name) exactly if at least two nodes and a majority of the ring are alive |
| Election.ElectedIsUnique | internal/election/election.go:133-137 | There is only one such node |
| Election.ElectedIsLargest | internal/election/election.go:133-137 | Every other live node has a smaller zxid, or the same zxid and a name earlier in lexicographic order |
| Election.BeforeIsLexicographic | internal/election/election.go:133-137 | Names compare at the first character in which they differ, or by length |
| Election.AnnouncementReachesAll | internal/election/election.go:186-199 | The announcement, and the new ring message after it, reach every live node once; all take the same coordinator and the live nodes as their ring |
| Election.Elector.HandleMessage | internal/election/election.go:199-235 | What each kind of message does to the addresses, the coordinator and the pending ring entry, what is sent on, and whether the election goes on |
| Election.Elector.HandleDiscovery | internal/election/election.go:143-158 | A discovery is passed on, or on return a majority leads to an announcement of the winner |
| Election.Elector.InitiateRingEntry | internal/election/election.go:167-175 | A starting node takes the configured ring and sends a discovery of who is there |
| ElectionRuns.HandledOnTheWay | internal/election/election.go:92-109 | Whatever its kind, a message at a node it has not visited goes on along the ring with the node's name and zxid added |
| ElectionRuns.SendersNameThemselves | internal/election/election.go:92-193 | Whatever a handler sends names its sender as source and as the last visited node, with the sender's zxid in the same place |
| ElectionRuns.WhenHandlerPanics | internal/election/election.go:127-193 | The exact messages on which a handler panics |
| ElectionRuns.FollowsTravel | internal/election/election.go:199-235 | Following a message through the handlers, each sending to the first live target, is the journey that the passes are about, and every receiver takes in what the message says |
| ElectionRuns.HandlersDiscover | internal/election/election.go:143-158 | A discovery run by the handlers leads to an announcement of the live node with the largest (zxid, name) exactly if a majority is alive, and changes nobody |
| ElectionRuns.HandlersAnnounce | internal/election/election.go:186-193 | An announcement run by the handlers makes every live node take the announced coordinator, and then the initiator sends the live nodes round as the new ring |
| ElectionRuns.HandlersRenew | internal/election/election.go:212-225 | A new ring run by the handlers becomes every live node's ring; an entering initiator then starts a discovery on it |
| ElectionRuns.HandlersDiscoverRing | internal/election/election.go:177-183 | A ring discovery run by the handlers changes nobody, and the initiator sends the live nodes round as the new ring |
| ElectionRuns.HandlersElect | internal/election/election.go:143-193 | From a discovery to the new ring: in the end every live node has the elected node as coordinator and the live nodes as ring |
| ElectionRuns.HandlersEnter | internal/election/election.go:167-225 | A starting node's entry makes the live nodes everybody's ring, and then it starts an election on that ring |
| ElectionSafety.ElectedWins | internal/election/election.go:143-158 | A node elected by a majority of the full ring meets what a new term demands, and may lead exactly if its epoch has not run out and no follower is stuck in sync mode at its zxid |
| ElectionSafety.ElectedHas | internal/election/election.go:143-158 | Whoever a majority elects has everything that few followers lacked, whichever term it is from, and a zxid at least that of each such proposal |
| ElectionSafety.ElectedHasDecided | internal/election/election.go:143-158 | Whoever a majority elects has everything decided in this or any earlier term |
| Replication.ReplicasNeverFail | internal/znode/check_utils.go:17-101 | In every state reached by tame steps each replica can apply what it has committed without a failure, and applying the rest of the leader's log leads to the same paths and data, and versions if updates name them, as the leader's cache |
| Replication.FaithfulReplicates | internal/znode/write_utils.go:15-132 | Where the cache is faithful to the log, every replica's committed prefix applies and the rest of the log leads on from it |
| Replication.StepFaithful | internal/Proposals/proposals.go:376-421 | Every tame step keeps the leader's cache equal to its log folded into the initial storage, and every prefix of the log leads to a storage that loads as a whole |
| Replication.ElectFaithful | internal/znode/znode_cache.go:13-52 | An election, after which the cache is loaded from the elected node's storage, keeps the cache faithful exactly if folding the node's queue into that storage changes nothing |
| Replication.EmptyQueueIsHarmless | internal/Proposals/proposals.go:121-150 | An elected node with nothing queued meets that condition |
| Replication.StepLog | internal/Proposals/proposals.go:400-421 | Within a term the leader's log grows by exactly the accepted writes, with the content the check returned |
| StaleCaches.BothFromOneTree | internal/znode/znode_cache.go:13-52 | A run of the whole system with three nodes in which a follower commits two requests that were both checked against the same tree, because the first was still queued when its holder was elected |
| StaleCaches.AcceptedCreateFails | internal/znode/write_utils.go:38-41 | In a reachable state of the system a committed, accepted create fails on a replica: the delete of its parent was queued when it was checked |
| StaleCaches.QueuedUpdateIsLost | internal/znode/check_utils.go:188-216 | In a reachable state of the system two updates that expect the same version have both been accepted and applied, and nothing is left of the first |
| Reloads.RequestThenElection | internal/Proposals/proposals.go:268-276 | For any accepted request there is a run of the system with three nodes in which a majority commits it, its holder is elected with nothing queued, and loads its cache from its storage |
| Reloads.FailoverForgets | internal/znode/znode_cache.go:80-104 | In a reachable state of the system the leader has committed its whole log, its storage and every replica that applies the log have a child that its cache lacks, after one update of the parent without children |
| Reloads.FailoverRestartsTopic | internal/znode/check_utils.go:105-131 | In a reachable state of the system the leader accepts the next message of a topic under number 1, a path its storage already has |
| ZnodeRuns.AcceptedIsWritten | internal/znode/write_utils.go:15-132 | An accepted request succeeds on a replica that agrees with the cache exactly if it is not a sync request, and afterwards they agree on paths and data, and on versions if the request names them |
| ZnodeRuns.CacheIsReplay | internal/znode/check_utils.go:17-101 | After any orderly requests the cache is the log of accepted requests folded into storage, and none of them fails |
| ZnodeRuns.ReplayPrefix | internal/znode/write_utils.go:15-132 | A replica that can apply a log can apply any prefix of it, and the rest from there |
| ZnodeRuns.NoLostUpdates | internal/znode/check_utils.go:188-216 | Between creation and deletion of a path, accepted updates that name their version expect strictly increasing versions, whatever else the leader handles in between |
| ZnodeRuns.RefusalLeavesCache | internal/znode/check_utils.go:81-97 | A refused request leaves the cache alone, except a watch trigger, which does exactly if the updates before the refused one named no versions and ended with the data that was there; if its updates name their versions, exactly if the first one is refused |
| ZnodeRuns.WhenCheckPanics | internal/znode/check_utils.go:17-131 | The exact requests on which the leader panics, ending a session included |
| ZnodeRuns.WhenCheckAccepts | internal/znode/check_utils.go:17-282 | The exact requests that are accepted, of every kind; in a watch trigger each update must expect the version its znode has after the earlier updates |
| ZnodeRuns.WhyRefused | internal/znode/check_utils.go:134-248 | What a refused create, setdata or delete is told |
| ZnodeRuns.WhatIsProposed | internal/znode/check_utils.go:17-282 | What goes into the log for an accepted request: a create at version 1 under its new name, updates one version on unless unconditional, the rest as it arrived |
| ZnodeAgreement.CreateAgrees | internal/znode/check_utils.go:134-185 | An accepted create, ephemeral or not, changes cache and storage alike although they update parent, session and znode in different orders |
| ZnodeAgreement.UpdateAgrees | internal/znode/check_utils.go:188-216 | After an accepted update data always agrees; versions do exactly if a version was named or is -1 already; full equality exactly if the request also repeats the other fields |
| ZnodeAgreement.UpdatesAgree | internal/znode/check_utils.go:81-97 | A watch trigger keeps data alike, and versions if every update names one; when exactly they stay alike is the next row |
| ZnodeAgreement.UpdatesAgreeExactly | internal/znode/check_utils.go:81-97 | After a watch trigger versions agree exactly on the paths whose last update named a version or left the znode at -1, and on the other paths that agreed before |
| ZnodeAgreement.DeleteAgrees | internal/znode/write_utils.go:147-170 | A checked delete succeeds on a replica, and cache and storage agree afterwards exactly if the znode had no descendants |
| ZnodeHandlers.ZnodeCache.Check | internal/znode/check_utils.go:17-101 | The decision and the new cache for every kind of request; an error before initialisation |
| ZnodeHandlers.ZnodeCache.CheckCreate | internal/znode/check_utils.go:134-185 | Which creates are refused, and what an accepted one does to the session, the parent and the cache |
| ZnodeHandlers.ZnodeCache.CheckUpdate | internal/znode/check_utils.go:188-216 | Which updates are refused, and that an accepted one changes data and version only |
| ZnodeHandlers.ZnodeCache.CheckUpdates | internal/znode/check_utils.go:81-97 | The loop of a watch trigger, including what it leaves behind when it stops early |
| ZnodeHandlers.ZnodeCache.CheckDelete | internal/znode/check_utils.go:220-248 | Which deletes are refused or panic, and that an accepted one unlists and forgets one path |
| ZnodeHandlers.ZnodeCache.CheckDeleteSession | internal/znode/check_utils.go:250-282 | Ending a session forgets the ephemerals named in storage, one by one, and the session |
| ZnodeHandlers.ZnodeCache.PopulateLayer | internal/znode/znode_cache.go:80-104 | The recursive load stops on every storage; it fails exactly if a followed list names a child without a znode, and otherwise adds exactly what is reached through the lists |
| ZnodeHandlers.ZnodeCache.Init | internal/znode/znode_cache.go:13-52 | The cache loaded from any storage and when loading fails; a storage without a root gets its base znodes first, always loads then, and an empty one becomes exactly these, tidy and equal to the cache |
| ZnodeHandlers.ZnodeStore.Write | internal/znode/write_utils.go:15-132 | The result, with the paths that `WriteReturnsPaths` is about, and the new storage for every kind of request, including what a failed one leaves behind |
| ZnodeHandlers.ZnodeStore.WriteCreate | internal/znode/write_utils.go:24-78 | Parent, session and znode are written in this order |
| ZnodeHandlers.ZnodeStore.WriteDeleteSession | internal/znode/write_utils.go:91-119 | The session's ephemerals are deleted one by one, then the session |
| ZnodeHandlers.ZnodeStore.DeleteOp | internal/znode/write_utils.go:147-170 | The parent forgets the child, and the whole subtree goes |
| ZnodeHandlers.RemoveChild | internal/znode/check_utils.go:236-241 | The loop drops exactly the first child of that name |
| ZnodeTrees.CreateWellFormed | internal/znode/check_utils.go:178-182 | An accepted create keeps every listed child present, every znode listed once in its parent, and ephemerals without children |
| ZnodeTrees.DeleteWellFormed | internal/znode/check_utils.go:220-248 | On a well-formed tree an accepted delete never panics, and keeps the tree well formed exactly if it removes a childless znode other than the root |
| ZnodeLoading.LoadedIsAll | internal/znode/znode_cache.go:38-47 | The loaded cache is the whole storage exactly if every znode but the two starting points is named in its parent's list and every list names existing znodes |
| ZnodeLoading.UpdateLoads | internal/znode/write_utils.go:79-84 | A write that replaces a znode of a storage that loads as a whole leaves one that does exactly if it names the same children |
| ZnodeLoading.UpdateTidy | internal/znode/write_utils.go:79-84 | In a storage in which every child is listed once, a write that replaces a znode keeps that exactly if it repeats the znode's children, each once; one without children exactly if there are none |
| ZnodeLoading.NewStorageLoads | internal/znode/znode_cache.go:57-76 | A storage that gets its base znodes always loads, as these two alone, and as a whole exactly if nothing else was stored |
| ZnodeLoading.FirstStorage | internal/znode/znode_cache.go:13-22 | The storage of a first start holds exactly the root and the session directory, and the loaded cache equals it |
| ZnodeStorage.FirstCreate | internal/znode/write_utils.go:24-37 | A first create on an empty replica succeeds exactly right under the root or the session directory; the storage then holds both, the new znode, and nothing else |
| ZnodeStorage.FailedCreateLeaves | internal/znode/write_utils.go:34-65 | A failing create leaves storage alone if the parent is missing; if the session is missing or no session, the parent already lists the missing child, and storage no longer loads as a whole |
| ZnodeStorage.AcceptedKeepsTidy | internal/znode/write_utils.go:15-132 | An accepted request that repeats children, brings none on creation, and spares the session directory leaves a storage that the next leader loads as a whole |
| ZnodeStorage.ForgetsChildren | internal/znode/req_json.go:61-76 | After an update without children everything below its znode stays in storage, but the next leader does not load it |
| ZnodeInvariants.RunKeepsTree | internal/znode/check_utils.go:17-101 | Over any orderly requests the cached tree stays well formed |
| ZnodeInvariants.SequentialCreateAccepted | internal/znode/check_utils.go:31-43 | On a well-formed cache a sequential create under an existing parent gets a name not in use, and is accepted exactly if the parent is not ephemeral, the version is 0 and the session of an ephemeral znode exists; it becomes the parent's last child |
| Sessions.SessionOverRun | internal/znode/check_utils.go:159-175 | Over any orderly run that leaves its list to the creates, a session names, in the cache and on a replica, exactly the znodes created under it, in order; those that belong to it are the created ones not deleted again |
| Sessions.CheckEnds | internal/znode/check_utils.go:250-282 | An accepted end of a session forgets the session and exactly the znodes it names in the leader's storage |
| Sessions.WriteEnds | internal/znode/write_utils.go:91-119 | The end succeeds on a replica exactly if every named znode is still there and has not gone with an earlier one; then exactly these, the session and what is below them are gone |
| Sessions.FailedEndLeaves | internal/znode/write_utils.go:91-117 | An end that fails on a replica has deleted what the session names up to the first znode that is missing, and nothing else |
| Sessions.SessionEnds | internal/znode/write_utils.go:91-119 | If the leader's storage has caught up, an accepted end leaves cache and storage alike, without the session and exactly its znodes |
| Sessions.LifeOfSession | internal/znode/check_utils.go:250-282 | After any orderly run in which the znodes created under a session were not deleted, its end is accepted, succeeds on a replica that has applied the log, and removes from cache and replica the session and exactly the znodes created under it |
| Sessions.DeletedBeforeEnd | internal/znode/write_utils.go:104-114 | If a client deleted one of its ephemeral znodes, the end of its session is accepted as long as all parents are there, and fails on every replica |
| SeqNames.SeqName | internal/znode/check_utils.go:105-131 | The loop over the siblings finds the largest number of the base name and appends its successor |
| SeqNames.SequentialIsFresh | internal/znode/check_utils.go:105-131 | The generated name is not among the siblings and numbered above all of them exactly if the largest 64-bit number is not taken |
| SeqNames.ContiguousNames | internal/znode/check_utils.go:127-127 | Sequential creates without deletes give contiguous numbers from 1 |
| SeqNames.NumberOfNumbered | internal/znode/check_utils.go:112-117 | The number put into a name is read back from it, whatever the base name contains |
| SeqNames.AtoiItoa | internal/znode/check_utils.go:117-127 | Parsing a printed 64-bit number gives the number |
| SeqNames.PrintedCanonically | internal/znode/check_utils.go:127-127 | A number is printed as the only text without plus sign and leading zeros that reads back as it |
| PubSub.FindMaxMessageNumber | main/server.go:789-804 | The loop finds the largest number among the children, with or without the prefix |
| PubSub.AwaitedIsNext | main/server.go:226-231 | A subscriber watches the very name the next message gets, exactly if no bare number among the children exceeds all message numbers |
| PubSub.PublishedMessages | main/server.go:226-231 | On a topic with n published messages exactly the numbers 1 to n are stored, and subscribers wait for n + 1 |
| PubSub.PublishNext | main/server.go:208-212 | Publishing is accepted, creates message n + 1 at the path subscribers wait for, and leaves the earlier messages alone |
| PubSub.GetSubscription | main/server.go:239-266 | The loop ends on every storage; it sends the stored messages from the given number on, in order, and returns the first missing number |
| PubSub.FetchesChain | main/server.go:239-266 | Two fetches chained by the returned number, of storages in which the earlier messages are the same, together deliver what one fetch of the later storage would |
| Topics.RunPublishes | internal/znode/check_utils.go:17-101 | Over any run of publishing and of orderly requests elsewhere in the tree the messages of a topic are numbered without gaps, and none is changed or lost |
| Topics.FetchesOverRun | main/server.go:239-266 | Over such a run, fetches on a replica that applies what the leader accepts, chained by the returned number, deliver every message exactly once in order of publication |
| Topics.TopicForgets | internal/znode/check_utils.go:105-131 | After an update of the topic itself without children the next leader gives the next message number 1, a path that already holds a message in storage |
| Watch.WatchCache.Encode | internal/znode/watch.go:87-128 | The registration and the session update of which `EncodeAdds` says what it contains, for a watched path, present or not |
| Watch.WatchCache.Check | internal/znode/watch.go:134-192 | The loops over written paths and their watchers produce the updates, the sessions, and the remaining registrations |
| Watch.ListsStayAligned | internal/znode/watch.go:160-163 | Watching adds one (path, version) pair and reporting removes the first pair of the path; all other versions stay with their paths |
| Watch.ReportsOnce | internal/znode/watch.go:134-192 | A write reports every registration on the written paths once and removes it, and leaves all others unchanged |
| Watch.EachReportedOnce | internal/znode/watch.go:87-192 | Over any sequence of registrations and writes each registration is reported exactly once, at the next write of its path, or still waits at the end |
| Watch.ReturnedIsReported | internal/znode/watch.go:134-192 | Over such a sequence the number of times the checks return a session is the number of its reports, added up over the written paths |
| Watch.EachReturnedOnce | internal/znode/watch.go:134-192 | What the checks return of a session and what still waits at the end are together its registrations, so each is returned once at most and none gets lost |
| Watch.SecondWriteIsSilent | internal/znode/watch.go:180-181 | Without a new registration a second write of the same paths reports nobody |
| Watch.UpdatesAreAligned | internal/znode/watch.go:149-178 | Each update a report asks for names the stored version and keeps the session's lists aligned |
| Watch.TwoTriggersClash | internal/znode/watch.go:142-178 | Two updates of one session in one report expect the same version, and such a request is refused |
| Notices.WriteReturnsPaths | internal/znode/write_utils.go:10-132 | An applied request returns exactly the paths it creates, replaces or deletes by name, a session's ephemeral znodes when it ends one, and none for a watch trigger; created and replaced znodes are as the request has them, deleted ones gone |
| Notices.WhenApplied | internal/znode/write_utils.go:15-132 | Exactly when a create, setdata, delete or watch trigger is applied; a sync, an unknown kind and the end of what is no session are refused, each with its error; these and a failed delete change nothing |
| Notices.WrittenIsReported | main/server.go:393-406 | After an accepted create, setdata or delete is applied, the check of the returned paths reports every registration on the written path once, and none is left there |
| Notices.EncodeAdds | internal/znode/watch.go:103-127 | Registering asks for one setdata of the session's znode that names its stored version, keeps the rest of the session, and adds the path with its stored version, or 0 if there is no such znode |
| Notices.WhyNotWatched | internal/znode/watch.go:87-102 | Registering fails exactly if the session is missing or is none, and then registers nothing |
| Notices.WatchIsStored | internal/znode/watch.go:127-127 | Once that request is accepted and applied, the stored session has the watch |
| Notices.ReportDrops | internal/znode/watch.go:149-178 | A check returns, for each registration on a written path, its session and the setdata that drops the path's first pair from the session's lists and names its stored version |
| Notices.WhenCheckReports | internal/znode/watch.go:149-163 | A check succeeds exactly if each watcher's session is stored and has a version where it lists the path |
| Notices.FailedCheckKeeps | internal/znode/watch.go:130-192 | A check that fails has cleared the paths before the one it fails at, because of a session of that path; every other registration stays |
| Notices.ComesAndGoes | internal/znode/watch.go:160-163 | A watch registered and then reported leaves the lists as they were, if the session did not watch the path before |
| Watch.WatchCache.Resume | internal/znode/watch.go:30-83 | The loop over the watched paths: what is registered again, the update and the paths to tell the client of, and the missing session or version |
| Resumption.ResumeRegisters | internal/znode/watch.go:46-68 | A session that comes back is registered once for each watched path that is stored at the version it is watched at, and nobody for anything else |
| Resumption.WhenResumed | internal/znode/watch.go:35-48 | Picking up a session succeeds exactly if it is stored as one and has a version for each watched path |
| Resumption.WhenTold | internal/znode/watch.go:69-82 | The client hears of every watched znode that changed exactly if one did not change or none did; if all changed it hears nothing |
| Resumption.ResumeAsks | internal/znode/watch.go:69-79 | The update asked for keeps the unchanged paths and every version, so the two lists stay aligned exactly if nothing changed |
| Resumption.ResumedAgain | internal/znode/watch.go:48-70 | With nothing changed since, the next return keeps the same watches exactly if each stands where the old list had its own version |
| Resumption.LostOnSecondReturn | internal/znode/watch.go:48-82 | Two watches of which the first changed: the update applied, the second return registers nothing and tells the client nothing, although nothing changed since |

## Left out

- Time, timeouts and reconnects: links are FIFO queues that lose nothing while both ends live; TCP and `internal/ConnectionManager` are not part of this model.
- JSON: messages, requests and session data are datatypes; `Replication` assumes only that a replica unpacks what a leader packed.
- The filesystem: storage is a map from canonical paths to znodes and an epoch log a byte sequence; native byte order is taken as little-endian; writes do not fail.
- The asynchronous proposal writer: it is drained at once, so nothing is claimed about a crash between acknowledging and writing.
- The goroutine of a sync reply: the whole reply is one step, so interleaving it with later messages of the leader is not modelled.
- Locks, busy-waiting and channel capacities: one message is handled in one step; `SafeQueue` appears as sequences.
- Restarts: a crashed node does not come back into the cluster; `RestoredIsNewest` covers the recovered zxid alone.
- A deposed leader that is still alive: the code elects a new leader when heartbeats fail, and the old one may go on; here it takes no further step, which also bounds the number of terms by about half the nodes.
- Elections are one step in `Cluster`; in `Election` a pass runs over a fixed live set, and the passes of one election do not interleave with another's.
- Rings that shrink with `Addresses`: majorities are of all nodes, as the acknowledgement threshold is.
- `Pause` and `Continue`: a node leads at most once in its life, which is what the flag in `Continue` amounts to without restarts.
- ClusterRuns.RunSafe: runs of the model contain no election that leaves somebody stuck in sync mode at the winner's zxid; `RunSafeExactly` covers those runs of the code, `StuckIsReached` and `StuckFollowerFails` say what happens in one.
- Replication.ReplicasNeverFail: assumes tame steps: no `delete_session`, no `sync`, deletes of childless znodes only and not of the session directory, updates that repeat children, creates without children, no watch trigger that is refused after updates that made a difference, and a harmless queue at an election; each has a lemma above that shows why. A leader that panics takes no further step.
- Replication.StepFaithful: the same tame steps.
- The first storage: `Replication` starts all nodes from the same storage with its base znodes; that a replica creates them itself at its first write is in `Write` only.
- `delete_session` in whole runs of the system: it reads the leader's storage, which may lag behind its cache, and leaves the session directory's cached children alone; `Sessions` covers one end of a session after any run.
- Versions and message numbers are unbounded integers; sequence numbers are 64-bit.
- The test modes, logging, the client, session timers, heartbeats, random identifiers and the resending of pending requests.
