# LevelUpDB's Raft node, modelled in Dafny

LevelUpDB is a key-value store over LevelDB, replicated with Raft. This project models one Raft node of it, the
cluster the nodes form, the files a node recovers from, the execution of the log against the store, and the load
balancer's leader pointer. Raft is described by Ongaro and Ousterhout, "In Search of an Understandable Consensus
Algorithm" (extended version): sections 5.2 (elections), 5.3 (replication), 5.4.1 to 5.4.3 (safety), and Figure 3
(the named guarantees).

| Files | What they hold |
|---|---|
| `raft_node.dfy` | the handlers of one node, as functions on a node value, as coded and repaired |
| `handler_laws.dfy` | what each handler answers and leaves behind, field by field, independently of how it is written |
| `raft_system.dfy` | the cluster: messages in flight, crashes, steps, runs, and a history no handler reads |
| `quorum.dfy`, `elections.dfy`, `election_restriction.dfy` | invariants of elections, for the handlers as coded and repaired |
| `log_matching.dfy`, `replication.dfy`, `completeness.dfy`, `commitment.dfy` | invariants of replication and commit, for the repaired handlers |
| `winning.dfy` | when a candidate wins and a put commits: exactly with a majority |
| `apply_log.dfy`, `execution_record.dfy`, `store_convergence.dfy` | applying log windows to the store; the record of executed commands against the stores; what every store holds |
| `raft_theorems.dfy` | the guarantees over whole runs |
| `repairs.dfy`, `coded_runs.dfy` | exactly when the code as written needs no repair |
| `driving.dfy`, `witness.dfy`, `later_leader.dfy`, `rejected_retry.dfy`, `overlapping_puts.dfy` | building runs, and the runs in which the code as written fails |
| `stable_leader.dfy`, `backtracking.dfy` | replication as coded under a leader that stays; the retry loop |
| `raft_server.dfy` | class `RaftServer`, whose methods do to mutable state what `raft_node.dfy` specifies |
| `text.dfy`, `replicated_log_file.dfy`, `replicated_log_memory.dfy`, `term_vote_file.dfy`, `term_vote_memory.dfy`, `volatile_state.dfy`, `state_helper.dfy`, `durable_runs.dfy` | the two files, their in-memory mirrors, `StateHelper`, and recovery |
| `leader_pointer.dfy`, `load_balancer.dfy` | the load balancer's leader pointer |

`dafny verify dfyconfig.toml` checks the whole project.

## Reading the model

A message stays in the set of messages for ever, so it may be lost, delayed, duplicated and reordered. A request is
answered at any time, any number of times; an answer carries the request and the locals of the thread that waits for
it, and may even reach a node that has restarted since. A broadcast thread replicates for nobody (a heartbeat, with any
captured length up to the present log length; a thread whose put is finished is one too) or for a put, with that put's
length, until it has its ack. As coded an attempt may use any next index (the local may be old); once repaired it reads
the present one. A candidacy starts at any time.

A node may crash and restart at any time. Inside a handler a crash may come after any durable write: a newer term, the
cut of the log file, any number of whole lines, any number of executed commands. A restart keeps term, votes and store
as they are then. Once repaired it recovers the log the file holds; as coded it recovers any log at all, because there
file and memory may have parted. A run is a finite sequence of steps of any length over any number of nodes. `History`
records elections, ballots, the leaders' logs, acknowledgements and executed commands; no handler reads it.

A thrown exception is a result `false` that leaves the state as the source leaves it. Maps that the source keeps per
peer are maps here; integers are unbounded; fields of a file line hold neither a comma nor a newline, and a node's
address is not empty.

### Assumptions of the protocol theorems

- A1: all nodes share one fixed node list that includes themselves (the code grows it: `src/server/server.cc:175-201`,
  `src/server/server.cc:361-388`).
- A2: each handler is one step, and so is the leader's "read the indices, build the request" (the code checks and
  records a vote in separate critical sections: `src/server/server.cc:943-960`).
- A3: a granted vote counts only in the term it was asked for, and once per voter (`_votesGained` carries no term:
  `src/server/server.cc:431`, `src/server/server.cc:481-484`).
- A4: only a leader starts a put (the code does not check: `src/server/server.cc:121-126`).

### Repairs

`AsCoded` handlers are those of the source with P1, save that an insertion before the end of the log may also throw as
it does without P1 (`StateStore.StateHelper.InsertUnpatched` has its exact effect as written). "As coded" below means
these; rows that rest on P1 say so. `Repaired` handlers apply P1 and R1 to R5. As coded hold: elections, votes and
terms, the leader's announcements, the two file formats, recovery from the files (an insertion only where it reaches
the end of the log, see `StateStore.StateHelper.Insert`), the execution loop and its windows, and, with P1, replication
under a leader that stays. The replication guarantees over whole runs, and with them what the stores hold after
replays, are proved of the repaired handlers; their rows below start with "repaired".

- P1: `Insert` cuts the node's own file (`src/util/state_helper.cc:141` passes the path without the address, which is
  not the file opened at `src/util/replicated_log_persistent.cc:16`).
- R1: an AppendEntries request of a newer term is adopted, and a stale leader steps down
  (`src/server/server.cc:826-838`).
- R2: `Insert` drops the old suffix exactly when an entry conflicts, in both copies (`src/util/state_helper.cc:140-156`
  always cuts the file and never the vector).
- R3: the retry moves back, with the checked index just before the next index (`src/server/server.cc:545-546`,
  `src/server/server.cc:577-581`: the locals never change and the match index becomes -1).
- R4: a follower's commit index is capped at the last entry the request covers (`src/server/server.cc:869-873`).
- R5: a broadcast thread works in one term: its answer moves the index maps only in the term of its request, and its
  ack counts only for a put of that term (`src/server/server.cc:501` re-reads the term for every attempt, and
  `src/server/server.cc:577-600` compares nothing).

`CodedRuns.BenignExactly` says exactly which steps as coded need none of R1 to R5, and
`CodedRuns.BenignRunsNeedNoRepair` that a run made of such steps has every guarantee. Four runs show what goes wrong
otherwise: `Witness.StateMachineSafetyFailsAsCoded` (R4, with or without P1) and, with P1,
`LaterLeader.LogMatchingFailsAsCoded` (R2, R1), `RejectedRetry.SentinelLostInARun` (R3) and
`LaterLeader.OldPutCountedInLaterTerm` (R5, with R1 to R4 repaired as well as without).

## Model

| member | source | states |
|---|---|---|
| RaftTheorems.ElectionSafety | src/server/server.cc:425-458 | as coded and repaired: over a whole run with crashes, two nodes that lead the same term, at whatever moments, are one node |
| RaftTheorems.VotesAndTermsLast | src/util/term_vote_volatile.cc:8-42 | a node's recorded vote for a term never changes once set and its term never falls, across restarts |
| RaftTheorems.LeadersWereRecent | src/server/server.cc:943-965 | whoever leads had been a candidate of that term whom a majority voted for, each voter holding at that moment a log whose (last term, last index) was no greater than the winner's |
| RaftTheorems.CandidateLogFixed | src/server/server.cc:833-838 | between any two moments of one candidacy the candidate's log is the same |
| RaftTheorems.BallotOrigin | src/server/server.cc:943-965 | every recorded ballot was cast in one step of the run and shows the voter's log just before it |
| RaftTheorems.ElectionOrigin | src/server/server.cc:452-456 | every recorded election is a step that turned a candidate of that term into its leader with its log unchanged |
| RaftTheorems.PointerNamesTheLeader | src/client/loadbalancer.cc:402-438 | under any delay, duplication or reordering the recorded term never falls, and when positive the recorded leader is the one node elected in that term |
| RaftTheorems.LogMatchingHolds | src/server/server.cc:840-866 | repaired: two logs, of any nodes at any moments, with equal terms at an index are identical through it |
| RaftTheorems.LogTermsRise | src/util/replicated_log_volatile.cc:91-112 | repaired: terms never fall along a log, stay within the node's term, and only index 0 has term 0 |
| RaftTheorems.CheckPassesExactly | src/server/server.cc:841 | repaired: the consistency check of any request in flight passes exactly when the receiver holds the sender's log through the checked index, so reading 0 out of range is sound |
| RaftTheorems.LeaderAppendOnly | src/server/server.cc:126 | repaired: within its term a leader's log only grows |
| RaftTheorems.LeaderCompleteness | src/server/server.cc:121-146 | repaired: once a put has its majority, every node that leads a later term at any moment of the run holds the putter's log through the put's entry |
| RaftTheorems.StateMachineSafety | src/server/server.cc:866-904 | repaired: over a whole run, restarts that reset the indices and crashes inside insertions and between executed commands included, two commands executed at one index by any nodes are equal |
| RaftTheorems.CommittedLogsAgree | src/server/server.cc:141 | repaired: any two nodes at any two moments hold the same entry at every index both have committed |
| RaftTheorems.ReplayConverges | src/server/server.cc:894-904 | repaired: a node whose applied index is again that of every command it ever executed holds, sentinel key aside, the store its log gives when executed once from empty, whatever windows overlapped, whatever was replayed, and wherever between two commands it had crashed |
| RaftTheorems.StoresAgree | src/server/server.cc:894-904 | repaired: two such nodes that executed equally far hold the same store, sentinel key aside |
| RaftTheorems.RunInv | src/server/server.cc:425-995 | every state of a run satisfies the invariants of elections and pointer, and once repaired those of logs, commitment and stores |
| RaftTheorems.RunFollows | src/util/term_vote_volatile.cc:8-42 | between any two moments of a run terms, votes, elections and executed commands only grow, and once repaired leader logs and acknowledgements |
| RaftTheorems.MajorityIsChosen | src/server/server.cc:408-417 | repaired: a put that received its majority has a prefix that a majority acknowledged in its term, and the putter still holds it, whatever it has become |
| Winning.WinsExactly | src/server/server.cc:452 | as coded and repaired: in any state of a run a candidate can win if and only if the nodes it no longer waits for, itself included, are a majority |
| Winning.ElectionCanSucceed | src/server/server.cc:425-485 | as coded and repaired: a candidate for whom a majority's grants of its present term are counted or on their way can be elected: the run goes on to a state in which it leads that term |
| Winning.CommitsExactly | src/server/server.cc:408-417 | as coded and repaired: in any state of a run a put can commit if and only if the nodes it no longer waits for, its own included, are a majority, or the cluster is one node |
| HandlerLaws.VoteLaw | src/server/server.cc:919-995 | a vote is granted if and only if the request is not stale, the voter has no vote in its term, and the candidate's log ends in a newer term, or in the same and no earlier; a newer term is adopted and answered either way |
| HandlerLaws.OneWouldVote | src/server/server.cc:943-965 | of any two nodes without a vote in a term, one grants the other's request, and both do if and only if their logs end alike |
| HandlerLaws.CandidacyLaw | src/server/server.cc:425-446 | a candidacy is the next term with one vote, recorded unless one was, and every other peer still to hear of |
| HandlerLaws.VoteRequestLaw | src/server/server.cc:611-620 | a vote request tells the candidate's term and where its log ends |
| HandlerLaws.VoteAnswerLaw | src/server/server.cc:624-637 | under A3: a denial of a newer term makes a follower and no other answer does; a grant counts exactly when it is of the present term and its voter not counted yet |
| HandlerLaws.WinLaw | src/server/server.cc:452 | a candidate wins with more than half of the votes of the cluster, and not with fewer |
| HandlerLaws.OfficeLaw | src/server/server.cc:670-728 | a winner leads, with every peer's next index at its log's length and the match index one less |
| HandlerLaws.PutLaw | src/server/server.cc:126-132 | a put appends exactly its command in the leader's term, with one ack |
| HandlerLaws.CommitLaw | src/server/server.cc:141-142 | a committed put moves the commit index to its entry and executes everything after the applied index up to it, each key of the store getting its last write, so its own command is in the leader's store |
| HandlerLaws.RequestLaw | src/server/server.cc:492-523 | a request carries the leader's term, address and commit index, the index it is checked at with its term, and exactly the entries from next to the captured length |
| HandlerLaws.AppendAnswerLaw | src/server/server.cc:807-884 | success, answered term, identity, commit and applied index of a receiver, in terms of its log and the request |
| HandlerLaws.AppendEffectLaw | src/server/server.cc:848-873 | log and store of a receiver: the insertion, and each key the last write of the window executed |
| HandlerLaws.LimitLaw | src/server/server.cc:869-873 | how far a request lets a receiver commit: as coded the leader's index, once repaired no further than the request covers |
| HandlerLaws.CommitSpreads | src/server/server.cc:866-873 | after an accepted exchange the follower's commit index is at least the leader's when the request was built, once repaired capped at the last index covered |
| HandlerLaws.AckLaw | src/server/server.cc:574-600 | identity, indices and counted put after an answer, as coded and repaired |
| HandlerLaws.OverwriteLaw | src/util/state_helper.cc:140-156 | as coded with P1 each inserted entry is where it belongs and every other entry as it was |
| HandlerLaws.RepairedInsertLaw | src/util/state_helper.cc:107-161 | repaired: from the first entry the log does not hold on, the log is the request's entries and nothing behind them |
| HandlerLaws.RestartLaw | src/util/state_helper.cc:210-239 | a restart keeps term, votes, log and store and resets the rest |
| HandlerLaws.TornLaw | src/server/server.cc:894-904 | a receiver that crashes between two commands has those done before in its store, and no others |
| HandlerLaws.HalfCommittedLaw | src/server/server.cc:894-904 | so has a leader that crashes while it executes the commands of a put |
| ExecutionRecord.ExecutedMeansStored | src/server/server.cc:894-904 | as coded and repaired: a command newly recorded as executed by a node that does not crash in the step is in its log at that index, within its applied index, and its key is stored as last written since |
| ExecutionRecord.StoredMeansExecuted | src/server/server.cc:894-904 | as coded and repaired: whatever a store holds over crashes and restarts, a command its node executed put there |
| ExecutionRecord.AppliedMeansExecuted | src/server/server.cc:894-904 | as coded and repaired: whatever index a node has applied, it executed a command there |
| Elections.StepKeepsElections | src/server/server.cc:425-485 | every step keeps: a candidate's or leader's count is at most the number of nodes whose recorded vote is for it and was struck off; elections rest on majorities; messages tell the truth |
| Elections.OneElectionPerTerm | src/server/server.cc:452 | two elections of one term share a voter, who voted once, so they are one |
| Elections.CountedCandidacy | src/server/server.cc:465-485 | under A3: counting a granted vote, once per voter and in its term, keeps the bound on the count |
| Elections.CandidateSteady | src/server/server.cc:743-748 | a candidate was that candidate with that log before the step, unless the step started the candidacy |
| ElectionRestriction.StepKeepsRestriction | src/server/server.cc:611-637 | every step keeps: a ballot is recorded with each vote, a candidate's voters had logs no more recent than its own, and so had a majority for each election |
| LogMatching.CheckIsSound | src/server/server.cc:841-847 | over logs grounded in leader logs the check passes if and only if the log holds that index and agrees through it |
| LogMatching.InsertStretch | src/util/state_helper.cc:107-161 | repaired insertion of a stretch of a leader's log leaves the log alone if it held the stretch, else makes it the leader's prefix |
| Replication.StepKeepsLogs | src/server/server.cc:492-604 | repaired: every step keeps: each log is, up to each entry, what that entry's leader had; requests are stretches of their term's leader log; an acknowledgement means holding that much |
| Replication.AcceptedNode | src/server/server.cc:848-866 | repaired: a receiver that accepts is in the request's term, no leader, and holds the request's stretch of the leader log |
| Replication.RejectedRequest | src/util/state_helper.cc:235-238 | repaired: the shared sentinel always matches, so a rejection without a newer term happens only with a next index of at least 2 |
| Completeness.StepKeepsSafe | src/server/server.cc:919-965 | repaired: every step, a crash inside an insertion included, keeps: nodes, candidates and later leaders hold every prefix that can still be chosen |
| LogMatching.TornStretch | src/util/state_helper.cc:140-156 | repaired: a log left by a crash inside the insertion of a stretch of a leader's log is the old log or a piece of the leader's, and keeps all that the two begin with |
| Completeness.ChosenKept | src/server/server.cc:408-417 | repaired: a prefix a majority acknowledged in its term is in every later leader's log |
| Commitment.StepKeepsCommit | src/server/server.cc:866-873 | repaired: every step keeps: commit indices, requests' commit indices and executed commands lie within prefixes a majority acknowledged; counted acks come from distinct holders |
| Commitment.ExecutedAgree | src/server/server.cc:894-904 | repaired: in such a state executed commands with one index are one command |
| StoreConvergence.CrashStore | src/server/server.cc:894-904 | repaired: a receiver that crashes inside its insertion or between two executed commands still has a store that fits its log, up to the highest command it ever executed |
| RaftTheorems.ReachedWasExecuted | src/server/server.cc:894-904 | repaired: the highest index a node is recorded to have reached is that of a command it executed |
| StoreConvergence.StepKeepsStores | src/server/server.cc:894-904 | repaired: every step, a crash between two executed commands included, keeps: a store has only writes of the log up to the highest executed index, and exactly the last writes up to the applied index |
| ApplyLog.OverlapConverges | src/server/server.cc:894-904 | if a store had the window a..k applied to any base, applying b..c with a <= b <= k+1 and k <= c equals applying a..c once |
| ApplyLog.AppliedLookup | src/server/server.cc:894-904 | a window leaves every key it writes with its last write and every other key alone |
| ApplyLog.SentinelTells | src/server/server.cc:873 | a follower's inclusive start and a leader's exclusive one differ at most in the key "NULL" |
| CodedRuns.ReceiverAlike | src/server/server.cc:807-884 | in a state of a repaired run, a receiver as coded with P1 does what the repaired one does if and only if the term is not newer and, when accepted, the entries are there or nothing lies beyond them, and the commit index is covered or old |
| CodedRuns.BenignExactly | src/server/server.cc:532-604 | in a state of a repaired run, a step as coded with P1, crashes included, is a step of the repaired handlers with the same state and messages if and only if its guards hold; an insertion that throws never is |
| CodedRuns.BenignRunsNeedNoRepair | src/server/server.cc:807-884 | a run as coded with P1 whose steps meet their guards, so one in which no insertion throws, is a repaired run, so all guarantees hold of it |
| Witness.StateMachineSafetyFailsAsCoded | src/server/server.cc:869-873 | a run of the code as written, with any three nodes, where two of them execute different commands at index 1 |
| LaterLeader.LogMatchingFailsAsCoded | src/util/state_helper.cc:140-156 | a run as coded with P1, with any three nodes, where a node's log at two moments has equal terms at index 2 and differs before it, terms fall along it, and the node still leads a term its log is past |
| LaterLeader.OldPutCountedInLaterTerm | src/server/server.cc:577-600 | from a state of a run, as coded with P1 or with R1 to R4 and all other answers repaired, one answer used as coded gives a put of term 1 its majority in term 3 while no node holds the put's entry |
| Witness.PutReachesItsMajority | src/server/server.cc:408-417 | as coded and repaired, a run of any three nodes in which a put reaches its majority, so the guarantees about such puts are not empty |
| Repairs.OverwritingIsRight | src/util/state_helper.cc:140-156 | overwriting in place, as coded with P1, equals the repaired insertion if and only if nothing conflicts or no old entry lies beyond (R2) |
| Repairs.OldTailStays | src/util/state_helper.cc:140-156 | an entry that supersedes an older one leaves, as coded, the older entry behind it, so terms fall along the log; the repaired insertion drops it (R2) |
| Repairs.RetryDeliversExactly | src/server/server.cc:553-602 | started with match one before next, the retry loop as coded with P1, when it ends well, has delivered the leader's first len entries if and only if its first check passed (R3) |
| RejectedRetry.SentinelLostInARun | src/server/server.cc:553-602 | a run as coded with P1, with any three nodes, where a restarted leader is rejected once, its retry replaces the follower's whole log by one entry, and the put still gets its majority |
| Repairs.LimitsAgree | src/server/server.cc:869-873 | for one request the two commit limits agree exactly when the leader's index lies within what the request covers (R4) |
| Repairs.ExecutesPastTheEnd | src/server/server.cc:869-873 | as coded a leader commit index past the follower's log is adopted and the empty command executed (R4) |
| Repairs.NewerTermIsIgnored | src/server/server.cc:826-838 | receivers recognise a request alike exactly when its term is not newer; otherwise, as coded, a leader goes on leading and the log runs ahead of the node's own term (R1) |
| Repairs.SentinelLost | src/server/server.cc:577-581 | whenever the retry loop as coded with P1 ends well although its first check failed, the follower's sentinel has been replaced by the entry the loop set out to send (R3) |
| OverlappingPuts.CommitFallsExactly | src/server/server.cc:141 | finishing a put keeps the commit index from falling exactly when no later put finished before it |
| OverlappingPuts.CommitIndexFalls | src/server/server.cc:141 | a run, as coded and repaired, in which a leader's commit index falls from one state to the next |
| StableLeader.MatchIndexFallsExactly | src/server/server.cc:594-595 | in every stable-leader state and for every exchange, the match index does not fall exactly when the captured length is not behind it |
| StableLeader.MatchIndexFalls | src/server/server.cc:594-595 | from every state of a stable-leader run with a match index of at least 1, an exchange with the shortest captured length lowers it |
| Repairs.MajorityCountFailsForEvenSizes | src/server/server.cc:395-417 | `GetMajorityCount` is a strict majority exactly for odd sizes, while the test in use is one at every size above one |
| StableLeader.FollowersTrackTheLeader | src/server/server.cc:492-604 | as coded with P1, from agreed logs and under one leader: every follower log is a prefix of the leader's that never shrinks, and next = match + 1 within it, however exchanges with earlier captured lengths interleave |
| StableLeader.ExchangeDelivers | src/server/server.cc:587-596 | as coded with P1, an exchange of length n succeeds and leaves the follower holding the leader's first n entries |
| StableLeader.MajorityHolds | src/server/server.cc:408-417 | as coded with P1, once a put has its majority, a majority holds the leader's log through its entry from then on |
| StableLeader.TakesOffice | src/server/server.cc:670-728 | a winner whose log all nodes share takes office in a state such runs start from |
| Backtracking.Round | src/server/server.cc:553-602 | one round of the retry loop either ends it as specified or leaves it one step further back (repaired) or at index -1 (as coded) |
| Backtracking.RepairedRound | src/server/server.cc:841-866 | a repaired exchange with a follower not ahead in term succeeds if and only if the logs agree up to next, and then up to len |
| RaftServerNode.RaftServer.InvokeAppendEntries | src/server/server.cc:532-604 | with every request answered and no other thread: repaired, ends after fewer rejections than the first next index, exactly where the logs stop agreeing, with the follower holding the leader's first len entries; as coded, after one rejection the entries overwrite the follower's log from index 0; either way the ack reaches the put of the thread |
| RaftServerNode.RaftServer.AppendEntries | src/server/server.cc:807-884 | success, answered term, identity, commit and applied index and store, over the log and the request; once repaired the files stay in step, as coded with P1 exactly when no old entry is left behind |
| RaftServerNode.RaftServer.ExecuteCommands | src/server/server.cc:894-904 | the store gets the window applied in order, and the applied index follows |
| RaftServerNode.RaftServer.ReqVote | src/server/server.cc:919-995 | granted if and only if the request is not stale, no vote is recorded in its term, and the candidate's log ends in a newer term or in the same and no earlier, over the log itself; term, vote and identity follow, and files and memory stay in step |
| RaftServerNode.RaftServer.RunForElection | src/server/server.cc:425-446 | a new term, a recorded own vote, one vote counted, durable |
| RaftServerNode.RaftServer.AlarmCallback | src/server/server.cc:753-759 | the timer makes a candidate of any node that does not lead, and leaves a leader alone |
| RaftServerNode.RaftServer.PrepareVoteRequest | src/server/server.cc:611-620 | the request carries the candidate's term, address, last index and last term, over its log |
| RaftServerNode.RaftServer.UseVoteReply | src/server/server.cc:624-637 | under A3: a denial of a newer term makes a follower and nothing else does; the count grows by one exactly for a grant of the present term from a voter not counted yet |
| RaftServerNode.RaftServer.FinishElection | src/server/server.cc:452-456 | won if and only if twice the votes exceed the cluster's size and the node is a candidate; then it leads, with every peer's indices set, and announces its term and address |
| RaftServerNode.RaftServer.StartPut | src/server/server.cc:126-132 | appends the entry in the current term to both copies and captures the length |
| RaftServerNode.RaftServer.CommitPut | src/server/server.cc:141-142 | commits up to the put's own entry and executes what follows the applied index: each key of the store has its last write of that window, the put's own command included |
| RaftServerNode.RaftServer.PrepareRequest | src/server/server.cc:492-523 | field by field over the server's state: term, address, commit index, checked index and its term, and exactly the entries from next to the captured length; an unknown peer throws |
| RaftServerNode.RaftServer.UseAppendReply | src/server/server.cc:574-600 | index maps, identity and ack counts after an answer: as coded whatever the terms, once repaired only in the request's term |
| RaftServerNode.RaftServer.Restart | src/util/state_helper.cc:210-239 | a restarted server is the node before the crash with its volatile part reset |
| RaftServerNode.RaftServer.CrashInInsert | src/util/state_helper.cc:107-161 | repaired: a server restarted from the file an insertion had written so far is the node the crash step of the cluster yields |
| RaftServerNode.RaftServer.CrashInExecution | src/server/server.cc:894-904 | repaired: a receiver that crashes between two commands it executes restarts as the crash step of the cluster says, with the commands done in its store |
| RaftServerNode.RaftServer.CrashInCommit | src/server/server.cc:141-142 | a leader that crashes between two commands of a put restarts likewise |
| RaftServerNode.RaftServer.FirstStart | src/util/state_helper.cc:235-238 | a server over empty files starts as a fresh node with the sentinel |
| StateStore.StateHelper.Insert | src/util/state_helper.cc:107-161 | as coded with P1: the file holds old[..s]+new, memory also the old tail, so the copies agree if and only if there is none; the volatile insertion never throws; every intermediate file is old[..s]+new[..j] |
| StateStore.StateHelper.InsertUnpatched | src/util/state_helper.cc:107-161 | exactly as written: without a file at the bare path it throws if and only if 0 <= start < length and changes neither copy; with one, memory is as with P1 and the node's own file keeps its bytes behind what is written |
| StateStore.StateHelper.InsertAgreeing | src/util/state_helper.cc:107-161 | repaired: both copies hold the repaired insertion; every intermediate file is the kept part and the first j new entries |
| RaftNode.InsertAfterKept | src/util/state_helper.cc:107-161 | repaired: the insertion skips the entries the log holds and replaces all behind them by the rest, if there is a rest |
| StateStore.StateHelper.Append | src/util/state_helper.cc:84-98 | both copies grow by the entry, whose offset is the old file length |
| StateStore.StateHelper.AddVotedFor | src/util/state_helper.cc:31-43 | records at most one vote per term; file and memory stay in step exactly when the vote's term is not ahead |
| StateStore.StateHelper.AddCurrentTerm | src/util/state_helper.cc:67-75 | the term never falls; file and memory stay in step |
| StateStore.StateHelper.Init | src/util/state_helper.cc:210-239 | rebuilds term, votes and records the files add up to, and throws exactly when the vote file votes twice in a term |
| StateStore.StateHelper.Restart | src/util/state_helper.cc:210-239 | from durable state recovery yields the term, votes and log of before, and never throws |
| StateStore.StateHelper.Recover | src/util/state_helper.cc:210-239 | from the image of a log recovery yields exactly that log, or the sentinel if empty |
| StateStore.StoppedInsertion | src/util/state_helper.cc:140-156 | a file left by an insertion stopped after j lines parses to old[..s]+new[..j], never a mixed log |
| StateStore.OverwrittenDurable | src/util/state_helper.cc:140-156 | after overwriting, both copies agree if and only if nothing of the old tail is left |
| DurableRuns.WriteThenCrash | src/util/state_helper.cc:31-161 | as coded with P1 and repaired: after any sequence of term, vote, append and insert writes, a crash and a restart recover exactly what they add up to; as coded each insertion must reach the end of the log, which is exactly when it keeps both copies alike |
| ReplicatedLogFile.ImageRoundTrip | src/util/replicated_log_persistent.cc:168-221 | parsing the file of any log returns exactly its entries, each with the byte position of its line |
| ReplicatedLogFile.LineRoundTrip | src/util/replicated_log_persistent.cc:54-57 | a printed line parses back to its term, key, value and offset |
| ReplicatedLogFile.ImagePrefix | src/util/replicated_log_persistent.cc:148-161 | the file of a prefix is a prefix of the file, and each offset is the length of the lines before |
| ReplicatedLogFile.PersistentReplicatedLog.ParseLog | src/util/replicated_log_persistent.cc:168-221 | reads the records of the lines in order |
| ReplicatedLogFile.PersistentReplicatedLog.WriteToLog | src/util/replicated_log_persistent.cc:67-89 | a positioned write of one line, after which the cursor moves on by its length |
| ReplicatedLogFile.PersistentReplicatedLog.Append | src/util/replicated_log_persistent.cc:99-107 | with the end of file as offset the line goes to the end |
| ReplicatedLogFile.PersistentReplicatedLog.Insert | src/util/replicated_log_persistent.cc:116-124 | the line is written at the offset and the cursor ends right behind it |
| Text.AtoiToString | src/util/replicated_log_persistent.cc:54-57 | reading a printed decimal gives back the number |
| Text.AtoiStops | src/util/replicated_log_persistent.cc:168-221 | reading a number stops at the first character that is not a digit |
| Text.UnfinishedLine | src/util/replicated_log_persistent.cc:168-221 | a last line that was not finished is read like any other |
| ReplicatedLogFile.LineWithoutCommas | src/util/replicated_log_persistent.cc:168-221 | a line without commas is taken for every field at once |
| ReplicatedLogMemory.VolatileReplicatedLog.Insert | src/util/replicated_log_volatile.cc:31-50 | overwrites in place or pushes back, and throws exactly past the end |
| ReplicatedLogMemory.VolatileReplicatedLog.GetTerm | src/util/replicated_log_volatile.cc:91-112 | the entry's term, or 0 out of range |
| TermVoteFile.ReplayAppend | src/util/term_vote_persistent.cc:60-121 | a line appended to whole lines adds exactly its term and vote to what the file adds up to |
| TermVoteFile.ReplayLaw | src/util/state_helper.cc:210-222 | replaying the vote file yields the highest term and exactly the votes its entries name, and throws if and only if two entries vote in one term |
| TermVoteFile.VoteLineExample | src/util/term_vote_persistent.cc:49-52 | the line of a vote, character by character |
| ReplicatedLogFile.LogFileExample | src/util/replicated_log_persistent.cc:54-57 | the file of a log with the sentinel and one entry, character by character |
| TermVoteFile.VoteRoundTrip | src/util/term_vote_persistent.cc:49-52 | a printed vote parses back |
| TermVoteFile.PersistentTermVote.ParseLog | src/util/term_vote_persistent.cc:86-121 | reads the votes of the lines in order |
| TermVoteMemory.VolatileTermVote.UpdateCurrentTerm | src/util/term_vote_volatile.cc:8-16 | throws exactly when the term would fall |
| TermVoteMemory.VolatileTermVote.AddVotedFor | src/util/term_vote_volatile.cc:34-42 | throws exactly on a second vote in a term |
| StateMemory.VolatileState.GetMatchIndex | src/util/state_volatile.cc:107-115 | throws exactly for an unknown peer |
| LoadBalancer.LeaderBoard.AssertLeadership | src/client/loadbalancer.cc:402-438 | only a newer term moves the pointer; then the old leader turns FOLLOWER and the new one LEADER, and of listed nodes only the leader stays LEADER |
| LeaderPointer.DeliveredIsHighest | src/client/loadbalancer.cc:408-413 | after any announcements the recorded term is the highest heard of and the leader is a node that announced it |
| LeaderPointer.DeliveryOrderIsIrrelevant | src/client/loadbalancer.cc:402-438 | when each term has one leader, order and repetition of announcements do not matter |

## Left out

Members stated weaker than the cited code promises, because that code does not keep the promise:

- RaftTheorems.LogMatchingHolds: of the repaired handlers; as coded it fails (`LaterLeader.LogMatchingFailsAsCoded`).
- RaftTheorems.LogTermsRise: of the repaired handlers; as coded it fails in the same run.
- RaftTheorems.CheckPassesExactly: of the repaired handlers, since it rests on Log Matching.
- RaftTheorems.LeaderAppendOnly: of the repaired handlers; as coded a stale leader goes on leading while others overwrite its log.
- RaftTheorems.LeaderCompleteness: of the repaired handlers, R5 included; with R1 to R4 alone an acknowledged put can be lost (`LaterLeader.OldPutCountedInLaterTerm`).
- RaftTheorems.MajorityIsChosen: of the repaired handlers, R5 included, for the same reason.
- RaftTheorems.StateMachineSafety: of the repaired handlers; as coded it fails (`Witness.StateMachineSafetyFailsAsCoded`).
- RaftTheorems.CommittedLogsAgree: of the repaired handlers; as coded a commit index can pass the end of a log.
- RaftTheorems.ReplayConverges: of repaired runs; the execution loop itself needs no repair, but the log under it does.
- RaftTheorems.StoresAgree: of repaired runs, since it rests on State Machine Safety.
- LogMatching.InsertStretch: describes the repaired insertion; `StateStore.StateHelper.Insert` has the exact effect of the coded one.
- LogMatching.TornStretch: describes a crash inside the repaired insertion; `StateStore.StoppedInsertion` is about the coded one.
- Replication.StepKeepsLogs: an invariant of the repaired handlers.
- Replication.RejectedRequest: of the repaired receiver in states of repaired runs.
- Replication.AcceptedNode: the receiver adopts the newer term (R1) and inserts as repaired (R2).
- Completeness.StepKeepsSafe: an invariant of the repaired handlers.
- Completeness.ChosenKept: rests on that invariant.
- Commitment.StepKeepsCommit: an invariant of the repaired handlers, with the commit index capped (R4).
- Commitment.ExecutedAgree: rests on that invariant.
- StoreConvergence.StepKeepsStores: an invariant of the repaired handlers.
- Backtracking.RepairedRound: of the repaired exchange; `Backtracking.Round` covers the coded one too.
- Elections.CountedCandidacy: counts a vote only in its term and once per voter (A3), which the code's counter does not ensure.
- RaftServerNode.RaftServer.UseVoteReply: likewise under A3.
- RaftServerNode.RaftServer.CrashInInsert: of the repaired insertion; as coded `StateStore.StateHelper.Recover` says what any intermediate file yields.
- StateStore.StateHelper.InsertAgreeing: the repaired insertion, beside the coded one.
- RaftNode.InsertAfterKept: the repaired insertion.
- HandlerLaws.RepairedInsertLaw: the repaired insertion.
- HandlerLaws.VoteAnswerLaw: under A3, as the code's counter carries no term.
- HandlerLaws.OverwriteLaw: with P1.
- CodedRuns.ReceiverAlike: of the receiver with P1; what an insertion does without it is `StateStore.StateHelper.InsertUnpatched`.
- CodedRuns.BenignExactly: exact for R1 to R5 with P1 applied; without P1 an insertion before the end of the log throws, which no benign step does.
- CodedRuns.BenignRunsNeedNoRepair: of runs with P1, or without it as long as no insertion throws.
- LaterLeader.LogMatchingFailsAsCoded: needs P1, since as written the overwriting insertion throws unless a file exists at the bare path.
- LaterLeader.OldPutCountedInLaterTerm: as coded needs P1 in the run before the last answer, for the same reason.
- RejectedRetry.SentinelLostInARun: needs P1, for the same reason.
- StableLeader.ExchangeDelivers: needs P1: without it a repeated exchange can throw in the follower.
- RaftServerNode.RaftServer.CrashInExecution: of the repaired insertion before the execution.
- StoreConvergence.CrashStore: of the repaired handlers.
- RaftTheorems.ReachedWasExecuted: of the repaired handlers.
- StateStore.StateHelper.Insert: with P1; assumes copies that agree, as coded it says nothing of a second insertion after a first left them apart.
- DurableRuns.WriteThenCrash: as coded excludes the insertions that leave the copies apart, which `StateStore.StateHelper.Insert` describes.
- RaftServerNode.RaftServer.AppendEntries: as coded it likewise assumes that file and memory agreed before the call.
- RaftServerNode.RaftServer.InvokeAppendEntries: every request is answered and no other thread acts in between; interleaved exchanges are the steps of `RaftSystem`.
- StableLeader.FollowersTrackTheLeader: needs P1, and speaks of the logs in memory; the files can be shorter after a short broadcast (see `StateStore.StateHelper.Insert`).

Not modelled:

- gRPC channels, stubs, status codes, thread lifetimes and stack pointers passed to threads; an RPC is two messages.
- Timers, sleeps, random timeouts and all liveness. The election timeout does not lie within its bounds as coded (operator precedence at src/server/server.cc:766-767) and no claim is made about it.
- A node list that changes (src/server/server.cc:175-201, src/server/server.cc:361-388): different lists break the overlap of majorities.
- LevelDB itself: a map whose writes succeed and survive a restart. File descriptors and writes torn within a line: a file is a string and a line is written whole.
- A vote check and its record as separate critical sections under different locks (src/util/state_helper.cc:33, src/util/state_helper.cc:53).
- The load balancer's heartbeats, which set identities freely (src/client/loadbalancer.cc:289-300), its routing and its quorum reads.
- Keys and values with a comma or a newline, empty node addresses, and overflow of machine integers.
- Client wrappers, address helpers, `MutexMap`, test drivers and scripts.
