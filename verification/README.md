# A verified model of NuRaft

This project models the core of NuRaft, a C++ implementation of the Raft consensus
algorithm, and proves what that core is for. It covers

- the replication protocol: votes, terms, leader change, client entries, append requests and
  responses, crash and restart. The handlers are methods of a server class (`RaftServers`),
  proved against functions (`Raft`). A cluster of n servers takes its steps with the same
  functions (`Cluster`, `Refinement`), and the theorems of sections 5.2 to 5.4 of the Raft
  paper hold in every run (`ClusterTheorems`, `CommitSafety`), by an invariant of votes, logs and
  messages (`ClusterInv`, `ClusterFrame`, `ClusterSteps`) and one of leaders (`ClusterLead`);
- the indexes a leader keeps for its peers: when the next index stays in range (`NextIndex`), what
  the matched index is worth (`Acks`, `MatchedIndex`), how a follower catches up (`CatchUp`), and
  runs put together step by step (`ClusterExample`), two of which end in diverging commits
  (`StaleAck`);
- what the protocol can still do from every reachable state: which votes are granted and who wins
  (`Votes`, `Answers`, `Electable`), that any majority elects, replicates and commits by the rule
  alone (`Progress`), that a server without peers commits by itself (`Alone`) and that a leader hears
  from no other of its term (`Rivals`);
- the calls into the state machine (`SmCalls`), the commit rule and its quorums (`CommitIndex`,
  `CommitRule`, `Quorums`) and what they mean in sets of members (`HealthyMembers`), one-server
  config changes (`ConfigChange`);
- the in-memory log store (`LogStore`);
- the concurrency around the commit executor (`CommitExec`, `CommitPass`, `CommitExample`, and what
  the protocol and the log store do to it, `ExecView`), the client path (`ClientStamp`), the
  pre-commit index (`PrecommitRace`) and the global commit queue (`CommitQueue`), as interleaved
  atomic steps or as a class;
- CRC-32 with slicing by 8 (`Crc32`, `CrcValues`), the nested config and snapshot formats (`Codec`,
  `Buffers`) and the RPC request format (`Rpc`, `RpcSession`) with what it refuses (`RpcDamage`) and
  accepts (`RpcAccepted`), and the position of every field on the wire (`WireLayout`).

`dafny verify dfyconfig.toml` checks everything.

## How the cluster model is set up

- Servers have the ids 0 to n - 1, all vote, quorum sizes are the defaults, membership is fixed,
  logs start at index 1 and the term grows by 1 per vote. Term, vote and log survive a crash.
- The network may lose, delay, repeat and reorder requests and append responses. A vote
  response reaches its handler at most once per request, because the RPC layer calls each
  handler once.
- A server may start a vote in any role, because `handle_prevote_resp` starts one without
  looking at the role (`src/handle_vote.cxx:493-502`).
- A leader may forget the next and matched index of a peer at any moment, as it does after a
  reconnection.
- A client entry is stamped and stored in one step. Whether threads keep that true is the
  subject of `ClientStamp`.
- Priorities, callbacks that decline a request, the stop flag and the batch size enter the
  handlers as parameters, so the theorems hold for every choice.
- History variables record votes, reigns (who led a term, with which log) and the highest index
  each server accepted in each term. No server reads them.
- `Committed(c, t, k, quorum)` means: index k of the log of term t's leader is an entry of term
  t, and a majority has accepted appends of term t up to k. It is not stated over the commit
  index of the leader, because the commit rule compares no terms and a matched index may come from
  an older term. `CommittedIffAcked` says what it means in terms of responses, `CountersHoldIff`
  when the matched indexes are right about it, and `CommitIndexesAgree` is section 5.4.3 for the
  commit indexes of the servers, if every raise from a response stays below an own entry that a
  majority has acknowledged in its term.

## Where the code does not do what its comments or names promise

- Pre-commit and rollback calls form a stack only if clients send application entries only:
  `handle_cli_req` announces every entry, the follower and the rollback only application
  entries. `CallsFormStackIff` gives the exact condition, `ClientConfBreaksStack` the input.
- `update_term` takes the client lock so that client entries are never stored under a wrong
  term, but `initiate_vote` changes term and role without it, and `handle_prevote_resp` can call
  it on a leader, after a leadership takeover that overtook the pre-vote. `StampedRight` holds for
  every run in which no leader starts a vote; `VoteIsSafeIff` says that starting one can end in a
  wrong stamp exactly if the server leads; `VoteOvertakesClient` gives the three steps from any
  state in which a client has checked the role. This is about the default locking method; with a
  single mutex the client holds the server lock (`src/handle_client_request.cxx:44-48`).
- A matched index may be older than the leader's term, for two reasons. `become_leader` resets the
  next indexes and keeps the matched ones (`src/raft_server.cxx:1012-1022`). And a response of a
  lower term is said to be ignored "for safety" (`src/raft_server.cxx:855`), but no code does so.
  `FoundedStaysIff` and `NewLeaderFoundedIff` say that these two kinds of steps, and no others, leave
  a matched index without an acknowledgement of the term. The matched indexes can then report a
  majority for an own entry that a later leader lacks (`CountersMislead`), and the commit rule's own
  values leave two servers with different committed entries (`CommitsDiverge`); both are shown for
  each reason. `CountersHoldIff` is the exact condition under which the counters are right.
- The acknowledgement of a lower term also moves the next index, possibly beyond the leader's log,
  where the next request makes the server exit (`NextLeavesRange`, with the exact condition in
  `NextStaysInRangeIff`). For it to arrive, the connection must have lasted: `peer::handle_rpc_result`
  drops responses of a replaced RPC client (`src/peer.cxx:110-127`), and the first pre-vote replaces
  the clients (`src/handle_vote.cxx:55-82`). So the election must skip pre-vote, as a leadership
  takeover does (`src/handle_custom_notification.cxx:222-223`), or the client must not have been
  replaced. Keeping a matched index needs nothing of the kind.
- The append handler lowers the applied index without the hand-shake that pauses the executor
  (`src/handle_append_entries.cxx:761-767`). The executor's compare-and-exchange then fails:
  `AdvanceTakesEffectIff` is the exact condition, `AdvanceCanFail` a run, and
  `CommittedIsNeverRolledBack` says when that write never happens.
- Full-consensus mode promises that all healthy members have a log when the leader commits it
  (`include/libnuraft/raft_params.hxx:564-575`). The code counts members instead, and a silent one
  that has the log stands in for a healthy one that has not (`HealthyMayLackIt`);
  `HealthyHaveItIff` is the exact condition.
- Endpoint and aux strings with a zero byte do not survive serialization
  (`SyncReqRoundTripIff`, `ZeroInEndpoint`).
- `write_at` and `apply_pack` of the in-memory log store accept indexes that leave a gap
  (`WriteKeepsIff`, `PackKeepsIff`; `WriteLeavesGap`, `PackLeavesGap`).

## Model

| member | source | states |
|---|---|---|
| `ClusterTheorems.ElectionSafety` | src/handle_vote.cxx:292-405 | at any two moments of any run, crashes included, two leaders of one term are the same server |
| `ClusterTheorems.CounterCountsVoters` | src/handle_vote.cxx:217-238 | the bare vote counter is the number of distinct servers counted, each of which voted for this candidate in this term and, while it stays in the term, still names it as its saved vote |
| `ClusterTheorems.LogMatching` | src/handle_append_entries.cxx:627-669 | in every reachable state, two logs with the same term at the same index are identical up to that index |
| `ClusterTheorems.LogTermsOrdered` | src/raft_server.cxx:1039-1049 | terms along a log are positive, never decrease and never exceed the server's current term |
| `ClusterTheorems.LeaderCompleteness` | src/handle_vote.cxx:310-319 | what a majority accepted in its leader's own term is in the log of every leader of every later term, at any later moment of the run |
| `ClusterTheorems.Agreement` | src/handle_append_entries.cxx:899-916 | any two prefixes accepted by majorities, at any two moments and in any terms, are comparable |
| `Votes.OneIsUpToDate` | src/handle_vote.cxx:310-319 | of any two logs at least one passes the other's comparison, and both do exactly if last term and length agree |
| `Votes.GrantedIff` | src/handle_vote.cxx:292-364 | a voter in whatever term grants exactly if the request's term is not older, it has not voted otherwise in that term, the priority suffices and its own log is not newer |
| `Votes.BestIsGranted` | src/handle_vote.cxx:292-364 | among any servers, the one with the newest log is granted every vote of the others in a term newer than all of theirs |
| `Votes.NewTermStartsOver` | src/raft_server.cxx:1385-1416 | after a term update the server follows, and the first response of the new term is counted as the first |
| `Votes.OldBallotEndsCandidacy` | src/raft_server.cxx:848-867 | a voter ahead in term refuses, stays as it is and names its term, which makes the candidate a follower in it |
| `Answers.AnswersAreCounted` | src/handle_vote.cxx:366-405 | in every reachable state a server has counted no more answers than members and no more grants than answers, and counts none after the last |
| `Electable.MajorityElects` | src/handle_vote.cxx:206-405 | from every reachable state, every majority can elect its member with the newest log, in a run that touches nobody else; the winner leads a newer term with one config entry of that term added |
| `Progress.MajorityCommits` | src/handle_append_entries.cxx:379-1053 | and that leader can replicate and commit its whole log by the commit rule, without a response of an older term, until every member of the majority has the log and has committed all of it |
| `Alone.AloneCommits` | src/handle_append_entries.cxx:121-134 | in every reachable state a leader without peers has committed everything up to its pre-commit index |
| `Rivals.NoRivalLeader` | src/handle_append_entries.cxx:590-598 | in every reachable state no append request under way reaches a leader of its own term, so the branch that ignores one is never taken and every request is answered |
| `Acks.CommittedIffAcked` | src/handle_append_entries.cxx:899-916 | in every reachable state, an entry of the leader's own term is accepted by some majority exactly if a majority, the leader included, has acknowledged it in that term |
| `Acks.CountersHoldIff` | src/handle_append_entries.cxx:1003-1026 | a majority of matched indexes that reach an own-term entry means acceptance by those counted if and only if each of them has acknowledged the entry in the leader's term |
| `Acks.StepIsAckStep` | src/handle_append_entries.cxx:899-916 | every action keeps all responses, and whatever it newly records as accepted is the leader's own or answered by a response of that term |
| `MatchedIndex.FoundedStaysIff` | src/handle_append_entries.cxx:1003-1016 | while a server leads a term, a matched index acknowledged in that term stays so in every step but exactly one: an accepted response of an older term for an index not acknowledged in the current one |
| `MatchedIndex.NewLeaderFoundedIff` | src/raft_server.cxx:1012-1022 | right after an election nothing is acknowledged in the new term yet, so exactly the positive matched indexes are unfounded leftovers of older terms |
| `MatchedIndex.FoundedCountersHold` | src/handle_append_entries.cxx:1003-1026 | with every matched index acknowledged in the leader's term, a majority of them reaching an own-term entry means acceptance by a majority |
| `CommitRule.CommitPointIsRule` | src/handle_append_entries.cxx:1164-1228 | with the default settings the commit point of the response handler is the largest index that a majority of members has reached, whatever the order of the peers and whoever is silent |
| `CommitRule.ReconnectForgets` | src/handle_append_entries.cxx:233-262 | after a reconnection the peer supports no index until it answers again and is asked from the pre-commit index on, and the others are as before; nothing changes if its next index was unknown |
| `CommitRule.RuleRaiseIsEarned` | src/handle_append_entries.cxx:1003-1026 | in every reachable state, a leader that commits to the index the rule selects makes a raise that `CommitIndexesAgree` admits, if the index is an entry of its term and every matched index is acknowledged in that term |
| `CommitSafety.CommitIndexesAgree` | src/handle_append_entries.cxx:899-916 | section 5.4.3 over whole runs: if every raise from a response stays below an own entry that a majority has acknowledged in its term, and a restart brings back what was committed, the prefixes up to the commit indexes of any two servers at any two moments are comparable |
| `CommitSafety.CommittedIsNeverRolledBack` | src/handle_append_entries.cxx:751-767 | in such runs the rollback of commit indexes that "should not happen" never does: no accepted append request lowers a commit index, nor an applied index that does not exceed it |
| `CommitSafety.WriteRollsBack` | src/handle_append_entries.cxx:751-767 | in any state, writing a request lowers commit index and applied index exactly as far as the entry after them is replaced, and keeps what they then cover |
| `CommitSafety.StepCommitInv` | src/handle_append_entries.cxx:899-916 | every action with such a raise or none keeps each committed prefix, in servers and in requests under way, part of what a majority accepted in its leader's term |
| `StaleAck.CountersMislead` | src/handle_append_entries.cxx:1003-1026 | runs of five servers, one with and one without a response of an older term: the commit rule commits the leader's own entry, no majority has accepted it, and a leader of a later term has another entry there |
| `StaleAck.CommitsDiverge` | src/handle_append_entries.cxx:1164-1228 | these runs go on until two servers have committed prefixes that are not comparable, with every commit index taken from a response being the one the rule selects |
| `StaleAck.NextLeavesRange` | src/raft_server.cxx:855-873 | that run reaches a leader whose next index for a peer is beyond its log |
| `NextIndex.NextStaysInRangeIff` | src/handle_append_entries.cxx:1003-1016 | in every reachable state, a step under which a leader keeps leading takes a next index out of range exactly if it is an accepted response of an older term that names an index above pre-commit + 1 |
| `NextIndex.NewLeaderInRange` | src/raft_server.cxx:1012-1022 | a server that becomes leader has the next index of every peer in range and the matched index it had before |
| `NextIndex.FreshAckInRange` | src/handle_append_entries.cxx:1003-1016 | an acknowledgement of the leader's own term names at most its pre-commit index + 1 |
| `ClusterTheorems.ReignIsLeaderLog` | src/raft_server.cxx:989-1076 | the log that the acceptance theorems speak of is the log of the server leading the term |
| `ClusterTheorems.AcceptedIsStored` | src/handle_append_entries.cxx:704-916 | a server that stays in a term holds everything it accepted in that term, whatever duplicates and stale requests arrive |
| `ClusterTheorems.LaterBaseHasIt` | src/handle_vote.cxx:310-319 | the log with which any later leader was elected contains the accepted prefix |
| `ClusterTheorems.NewerLogHasIt` | src/handle_vote.cxx:310-319 | a candidate whose log passes the voter's comparison has the accepted prefix the voter has |
| `ClusterTheorems.RunGrows` | src/raft_server.cxx:989-1076 | reigns are never replaced, their logs only grow and accepted indexes never shrink, over whole runs |
| `ClusterSteps.StepInv` | src/raft_server.cxx:649-895 | every action of every server keeps the cluster invariant |
| `ClusterSteps.CrownInv` | src/raft_server.cxx:989-1076 | becoming leader with a majority of counted votes keeps the invariant; the new reign is the only one of its term |
| `ClusterSteps.StoreInv` | src/handle_client_request.cxx:116-138 | a leader's append of an entry of its own term keeps the invariant |
| `ClusterSteps.AcceptInv` | src/handle_append_entries.cxx:704-916 | accepting an append request, completely or cut short by the stop flag, keeps the invariant |
| `ClusterSteps.MergeHolds` | src/handle_append_entries.cxx:718-842 | skipping, truncating and appending loses nothing accepted in an earlier term unless a leader in between lacked it |
| `ClusterSteps.AnswerVoteInv` | src/handle_vote.cxx:292-364 | granting or refusing a vote keeps the invariant, and the vote records the voter's log |
| `ClusterSteps.TakeVoteInv` | src/handle_vote.cxx:366-405 | counting a response keeps the counter equal to the voters counted |
| `ClusterSteps.RestartInv` | src/raft_server.cxx:42-265 | a crash and restart from saved term, vote and log keeps the invariant |
| `ClusterSteps.AppendRespInv` | src/handle_append_entries.cxx:969-1053 | an append response, however old, keeps the invariant |
| `ClusterSteps.ReconnectInv` | src/handle_append_entries.cxx:232-262 | forgetting what is known about a reconnected peer keeps the invariant |
| `ClusterLead.StepLeadInv` | src/raft_server.cxx:989-1076 | every action keeps that a leader's pre-commit index lies beyond the log it was elected with, all later entries being of its own term, and that requests and acknowledgements of its term stay within it |
| `ClusterFrame.FrameInv` | src/raft_server.cxx:649-895 | a step that accounts for the server it touches and for the records it adds keeps the invariant of all others |
| `ClusterExample.CommitHappens` | src/handle_append_entries.cxx:899-916 | there is a run of five servers in which two peers acknowledge the leader's own entry, a majority has accepted it and the commit rule commits it |
| `Refinement.VoteReqIsStep` | src/raft_server.cxx:675-713 | delivering a vote request changes the receiver as the server class does and leaves all other servers alone |
| `Refinement.VoteRespIsStep` | src/raft_server.cxx:848-867 | the same for a vote response, with a higher term ending its processing |
| `Refinement.StartVoteIsStep` | src/handle_vote.cxx:206-250 | the same for starting a vote, with exactly the ballots for its peers added to the network, and election of a single server included |
| `Refinement.AppendReqIsStep` | src/raft_server.cxx:675-709 | the same for an append request, with exactly its answer added to the network |
| `Refinement.AppendRespIsStep` | src/raft_server.cxx:848-873 | the same for an append response |
| `Refinement.SendIsStep` | src/handle_append_entries.cxx:379-552 | the same for building a request, with exactly that request added to the network |
| `Refinement.BatchIsRun` | src/handle_client_request.cxx:116-138 | a client batch is a run of single stores of the cluster |
| `Refinement.ClientReqIsRun` | src/handle_client_request.cxx:66-83 | a client request, empty or not, with the round of requests that follows it is such a run and the step that raises the pre-commit index and commits on a server without peers |
| `Refinement.ReconnectIsStep` | src/handle_append_entries.cxx:232-262 | the reset of a reconnected peer is a step of the cluster |
| `RaftServers.RaftServer.constructor` | src/raft_server.cxx:42-265 | a new server object is the restart of the state that was saved |
| `RaftServers.RaftServer.UpdateTerm` | src/raft_server.cxx:1385-1416 | a higher term makes the server a follower without a vote and with cleared counters; any other term changes nothing |
| `RaftServers.RaftServer.BecomeFollower` | src/raft_server.cxx:1342-1383 | only the role changes |
| `RaftServers.RaftServer.BecomeLeader` | src/raft_server.cxx:989-1076 | the log gains one config entry of the own term, the pre-commit index reaches it, every peer restarts at the old end; matched indexes stay |
| `RaftServers.RaftServer.CommitAlone` | src/handle_append_entries.cxx:121-134 | a server without peers commits its pre-commit index, any other changes nothing |
| `RaftServers.RaftServer.ResetPeer` | src/handle_append_entries.cxx:232-262 | next and matched index of a reconnected peer become unknown |
| `RaftServers.RaftServer.StoreLogEntry` | src/raft_server.cxx:1700-1726 | index 0 appends, any other index truncates and writes; a leader's config entry raises the pre-commit index |
| `RaftServers.RaftServer.TermForLog` | src/raft_server.cxx:1562-1590 | the entry's term, 0 for index 0 and beyond the log |
| `RaftServers.RaftServer.InitiateVote` | src/handle_vote.cxx:175-233 | a new term with the own vote counted, leadership if that is enough, else one ballot per peer |
| `RaftServers.RaftServer.RequestVote` | src/handle_vote.cxx:235-290 | the own vote, leadership or ballots with the own last index and term |
| `RaftServers.RaftServer.ProcessVoteReq` | src/handle_vote.cxx:292-364 | the vote is granted exactly for the current term, an up-to-date log, no other vote and a sufficient priority |
| `RaftServers.RaftServer.ProcessVoteResp` | src/handle_vote.cxx:366-405 | a response is counted once per call, only in the current term of an open election, and leads to leadership at the quorum |
| `RaftServers.RaftServer.HandleCliReq` | src/handle_client_request.cxx:85-208 | refusals change nothing; an accepted batch is stamped, stored and announced in order and raises the pre-commit index |
| `RaftServers.RaftServer.SkipExisting` | src/handle_append_entries.cxx:717-729 | the longest run of leading entries already stored under the same terms |
| `RaftServers.RaftServer.RollBack` | src/handle_append_entries.cxx:738-789 | every application entry above the kept part is rolled back once, newest first, and no commit index points above it |
| `RaftServers.RaftServer.WriteFrom` | src/handle_append_entries.cxx:791-842 | overwriting then appending leaves the kept part followed by the written entries, announced in order, and stops right after the write at which the stop flag is seen |
| `RaftServers.RaftServer.WriteRequest` | src/handle_append_entries.cxx:704-842 | skip, rollback, overwrite and append together merge the request into the log, and nothing is truncated if every entry is there |
| `RaftServers.RaftServer.HandleAppendEntries` | src/handle_append_entries.cxx:554-944 | refusals name the next free index and write nothing; an acceptance names the end of the request; a leader of the same term answers nothing |
| `RaftServers.RaftServer.ProcessAppendReq` | src/raft_server.cxx:649-749 | the handler after the term has been brought up to date, with exactly the state machine calls of the entries written |
| `RaftServers.RaftServer.CreateAppendReq` | src/handle_append_entries.cxx:379-552 | the request carries the term before the peer's next index and the entries from there on, up to the pre-commit index or the request limit, or one if limited to one, and fewer only where the size hint is reached; none exactly if the peer is ahead |
| `RaftServers.RaftServer.ProcessAppendResp` | src/handle_append_entries.cxx:969-1053 | an acceptance sets next and matched index and commits to the commit point; a rejection rewinds, unless told not to |
| `RaftServers.RaftServer.TryUpdatePrecommit` | src/handle_append_entries.cxx:946-967 | the pre-commit index never goes down |
| `PrecommitRace.TryUpdate` | src/handle_append_entries.cxx:946-967 | against threads that raise the index too, the loop ends, never loses a raise, and fails exactly if every exchange it may try is raced and the index stays too low, so only if it began more than that many below the target |
| `RaftServers.RaftServer.Commit` | src/handle_commit.cxx:41-49 | the commit index never goes down |
| `RaftServers.CutMerge` | src/handle_append_entries.cxx:814-841 | a request cut short by the stop flag leaves the log that the shortened request would leave |
| `RaftServers.CutCalls` | src/handle_append_entries.cxx:738-842 | and makes the calls that the shortened request would make |
| `CatchUp.ReachablePair` | src/handle_append_entries.cxx:624-669 | in every reachable state a leader, in the middle of a batch or not, and another server satisfy what the rounds need exactly if the server is not ahead in term and the next index for it is in range |
| `CatchUp.RoundRejected` | src/handle_append_entries.cxx:1028-1053 | a rejection leaves both logs alone and takes the next index to the follower's log end, or one down if that is lower still; it stays above 0 |
| `CatchUp.DeclineIsAskedAgain` | src/handle_append_entries.cxx:671-702 | a request that the application declines writes nothing and leaves the leader's next and matched index, so it is sent again |
| `CatchUp.StopStepsBack` | src/handle_append_entries.cxx:814-841 | a follower that stops while it writes refuses, keeps its pre-commit index and what came before the request, and makes the leader step one entry back |
| `CatchUp.RoundIndexes` | src/handle_append_entries.cxx:887-916 | an accepted request takes the follower's pre-commit index to its end and its commit index as far as the leader's within it |
| `CatchUp.RoundAccepted` | src/handle_append_entries.cxx:1003-1016 | an acceptance raises the next index by the entries sent, and the follower has everything before it |
| `CatchUp.CatchUpConverges` | src/handle_append_entries.cxx:395-462 | rounds that carry at least one entry while the peer is behind end with everything up to the pre-commit index on the follower and nothing that the leader lacks, hence equal logs outside a batch, after at most as many rounds as probing down and sending the log take |
| `CatchUp.CatchUpExists` | src/handle_append_entries.cxx:395-462 | such rounds exist in any number |
| `CatchUp.SliceMerge` | src/handle_append_entries.cxx:718-842 | merging a slice of the leader's log changes nothing or leaves exactly the leader's prefix |
| `SmCalls.CallsFormStackIff` | src/handle_client_request.cxx:116-138 | over any history from an empty log, pushing on pre-commit and popping on rollback leaves the log's application entries in order, exactly if clients sent application entries only |
| `SmCalls.ClientConfBreaksStack` | src/handle_client_request.cxx:116-138 | a single config entry from a client breaks the stack |
| `SmCalls.ReplayAppend` | src/handle_append_entries.cxx:718-842 | the calls of one append request turn the stack of the old log into that of the new one |
| `SmCalls.AppEntriesAre` | src/handle_append_entries.cxx:769-841 | that stack names exactly the entries of the application's type with their indexes, oldest first |
| `SmCalls.StaleRequestIsSilent` | src/handle_append_entries.cxx:717-745 | a duplicated or stale shorter request makes no calls and truncates nothing |
| `CommitIndex.ExpectedCommitIndex` | src/handle_append_entries.cxx:1164-1228 | the array access is in range for every setting and the result is the largest index reached by at least quorum + 1 members |
| `HealthyMembers.SelectedIndex` | src/handle_append_entries.cxx:1164-1228 | an index is within the one selected exactly if enough members have reached it: the quorum of the settings, and with full consensus as many as respond, counted as sets of voting members |
| `HealthyMembers.EveryoneHasIt` | src/handle_append_entries.cxx:1193-1211 | with full consensus and nobody silent, every voting member has the selected index |
| `HealthyMembers.HealthyHaveItIff` | include/libnuraft/raft_params.hxx:564-575 | with full consensus and a quorum of healthy members, all of them have the selected index if and only if fewer silent members are ahead of the slowest healthy one than healthy ones are as slow |
| `HealthyMembers.HealthyMayLackIt` | include/libnuraft/raft_params.hxx:564-575 | for any two indexes, three members that commit the higher one while a healthy peer is at the lower one |
| `HealthyMembers.NumbersAreSizes` | src/raft_server.cxx:577-632 | the counters of voting, silent and snapshot-receiving peers are the sizes of those sets |
| `HealthyMembers.PlainNeed` | src/raft_server.cxx:577-598 | a custom commit quorum that fits is the number of members needed, otherwise a bare majority of those counted is |
| `CommitIndex.QuorumForCommit` | src/raft_server.cxx:577-598 | the quorum for the settings, with snapshot receivers left out if asked |
| `CommitIndex.NotRespondingPeers` | src/raft_server.cxx:611-632 | the number of voting peers that do not respond |
| `CommitIndex.MatchedIndexes` | src/handle_append_entries.cxx:1164-1184 | the own index and those of the voting peers |
| `CommitIndex.SortedPick` | src/handle_append_entries.cxx:1186-1217 | the element at the quorum position of the descending order is that order statistic |
| `CommitIndex.CommitPointMonotone` | src/handle_append_entries.cxx:1164-1228 | the index never falls when members' indexes rise |
| `CommitIndex.FullConsensusLowers` | src/handle_append_entries.cxx:1193-1211 | full-consensus mode never raises it |
| `Quorums.QuorumInRange` | src/raft_server.cxx:577-598 | the quorum position is below the number of members for every setting |
| `Quorums.QuorumsMeetIff` | src/raft_server.cxx:567-598 | every commit quorum meets every election quorum exactly if their sizes exceed the membership |
| `Quorums.VotesNeeded` | src/raft_server.cxx:567-576 | a custom election quorum that fits is the number of votes needed, otherwise a bare majority is |
| `Quorums.DefaultQuorumsMeet` | src/raft_server.cxx:567-598 | the default sizes do |
| `ConfigChange.AddServer` | src/handle_join_leave.cxx:237-258 | the next config continues the uncommitted one if there is one, adds the server and keeps user context and async flag |
| `ConfigChange.RemoveServer` | src/handle_join_leave.cxx:492-515 | likewise without the server |
| `ConfigChange.ChangesAccumulate` | src/handle_commit.cxx:890-899 | over any changes and commits, each config is the one before it with one change, names its index and keeps its settings, so no change is lost to a later one |
| `ConfigChange.AddDiffersByOneIff` | src/handle_join_leave.cxx:248-255 | adding changes the member set by exactly one if and only if the id is new |
| `ConfigChange.RemoveDiffersByOneIff` | src/handle_join_leave.cxx:502-512 | removing does if and only if the id is a member |
| `ConfigChange.AddKeepsOverlap` | src/raft_server.cxx:171-197 | every voting majority before meets every voting majority after, for every cluster size |
| `ConfigChange.RemoveKeepsOverlap` | src/raft_server.cxx:171-197 | the same for a removal |
| `LogStore.InMemLogStore.constructor` | examples/in_memory_log_store.cxx:25-36 | a new store is empty and starts at 1 |
| `LogStore.InMemLogStore.Next` | examples/in_memory_log_store.cxx:64-68 | one past the last entry, whatever was compacted |
| `LogStore.InMemLogStore.LastEntry` | examples/in_memory_log_store.cxx:74-83 | the last entry, or the dummy, of term 0, if there is none |
| `LogStore.InMemLogStore.Append` | examples/in_memory_log_store.cxx:85-99 | the log grows by one entry at the returned index |
| `LogStore.InMemLogStore.WriteAt` | examples/in_memory_log_store.cxx:101-127 | truncates and writes; the store stays an interval exactly if the index is inside the log or just after it |
| `LogStore.InMemLogStore.Compact` | examples/in_memory_log_store.cxx:264-280 | any index: the start moves past it and exactly the later entries remain |
| `LogStore.InMemLogStore.ApplyPack` | examples/in_memory_log_store.cxx:237-262 | the packed entries replace what they cover, the dummy included if they start at index 0; the store stays an interval exactly if they touch or overlap what is stored and a new dummy has term 0 |
| `LogStore.InMemLogStore.LogEntriesExt` | examples/in_memory_log_store.cxx:152-181 | for any range, the shortest prefix of its entries that reaches the size hint, all of them, or nothing for a negative hint; the dummy stands for entries outside the log, which a range within the log does not have |
| `LogStore.InMemLogStore.EntryAt` | examples/in_memory_log_store.cxx:183-193 | the entry, or the dummy, of term 0, outside the log |
| `LogStore.InMemLogStore.TermAt` | examples/in_memory_log_store.cxx:195-205 | its term, or 0 |
| `LogStore.WriteKeepsIff` | examples/in_memory_log_store.cxx:101-109 | when a write keeps the keys an interval |
| `LogStore.PackKeepsIff` | examples/in_memory_log_store.cxx:237-262 | when applying packed entries does, at any index |
| `LogStore.WriteLeavesGap` | examples/in_memory_log_store.cxx:101-109 | a write at index 2 of an empty store does not |
| `LogStore.PackLeavesGap` | examples/in_memory_log_store.cxx:237-262 | a pack at index 3 after one entry does not |
| `LogStore.BatchIsShortest` | examples/in_memory_log_store.cxx:163-178 | no shorter prefix reaches the hint |
| `LogStore.BatchProgress` | examples/in_memory_log_store.cxx:159-178 | a hint that is not negative never yields an empty batch of a non-empty range |
| `CommitExec.PauseExcludesCommit` | src/handle_commit.cxx:944-997 | once the wait has returned true no commit call runs or begins until resume, for any number of executors and every interleaving, rollbacks included |
| `CommitExec.InOrderExactlyOnce` | src/handle_commit.cxx:160-269 | the applied indexes are one gapless ascending run from the later of the next index and the log start, never past the commit index or the log end |
| `CommitPass.LeavesIff` | src/handle_commit.cxx:160-249 | a pass ends at a check exactly for its reason: nothing committed beyond the applied index, log end, pause, or a used-up time slice after the first entry |
| `CommitPass.FirstPassIsFree` | src/handle_commit.cxx:190-215 | in every run the time slice is looked at only after an entry has been applied since the executor was entered |
| `CommitPass.PassAppliesAll` | src/handle_commit.cxx:160-269 | a pass that nobody interferes with applies every index from its start to the commit index or the log end, and leaves the applied index there |
| `CommitPass.PassExists` | src/handle_commit.cxx:160-269 | from every state in which the executor is free such a pass exists |
| `ExecView.HandlerIsWrites` | src/handle_append_entries.cxx:751-842 | an accepted append request changes applied index, commit index and log end as a run of the executor model's writes: roll back, overwrite, append, commit |
| `ExecView.CompactionIsAction` | examples/in_memory_log_store.cxx:264-280 | compacting the log store moves log start and log end as the executor model's action does |
| `ExecView.InstallIsAction` | src/handle_snapshot_sync.cxx:554-579 | so does a snapshot install, which also sets applied and commit index to the snapshot's |
| `ExecView.InstallThenPass` | src/handle_snapshot_sync.cxx:554-579 | the pass after an install applies exactly the entries after the snapshot up to the commit index |
| `CommitExec.AdvanceTakesEffectIff` | src/handle_commit.cxx:251-266 | the compare-and-exchange after a call takes effect exactly if no rollback below its index happened since the call began, in every interleaving, snapshot installs included |
| `CommitExample.AdvanceCanFail` | src/handle_append_entries.cxx:761-767 | a run in which it fails |
| `CommitExec.OpInv` | src/handle_commit.cxx:160-182 | one executor at a time, with the in-progress flag set exactly while it is between its two writes of the flag |
| `CommitQueue.GlobalQueue.Request` | src/global_mgr.cxx:237-264 | a waiting server is not queued twice |
| `CommitQueue.GlobalQueue.Pop` | src/global_mgr.cxx:288-303 | first come, first served, and the set follows the queue |
| `CommitQueue.GlobalQueue.Close` | src/global_mgr.cxx:182-197 | removing the first occurrence removes the server altogether and keeps the order of the others |
| `ClientStamp.StampedRight` | src/handle_client_request.cxx:85-142 | in every run in which no leader starts a vote, every client entry is stored under the current term of a server that has won that term and leads it |
| `ClientStamp.VoteIsSafeIff` | src/handle_vote.cxx:493-502 | after any such run, starting a vote can be followed by a wrongly stamped entry exactly if the server leads |
| `ClientStamp.VoteOvertakesClient` | src/handle_vote.cxx:493-502 | from every reachable state with a leader and a client past its role check, the vote, its term change and the store stamp an entry wrongly |
| `ClientStamp.RaceExists` | src/handle_vote.cxx:493-502 | such a state is reached |
| `ClientStamp.StepInv` | src/raft_server.cxx:1385-1416 | unless a leader starts a vote, every step keeps that a client that has seen the leader role holds the current term until it unlocks |
| `ClientStamp.OutcomeKept` | src/raft_server.cxx:1385-1416 | whatever clients do in between, a change of term or role ends with the role and term it was begun for |
| `ClientStamp.OutcomeIsRaft` | src/raft_server.cxx:989-1416 | these are the role and term that the protocol model's functions give |
| `Crc32.Crc32By1` | src/crc32.cxx:321-330 | the byte-table loop computes the one-bit-at-a-time CRC for every string and seed |
| `Crc32.Crc32By8` | src/crc32.cxx:332-373 | so does slicing by 8 |
| `Crc32.TableIsSteps` | src/crc32.cxx:32-53 | table k of the generation rule is k + 1 byte steps of its index |
| `Crc32.StepLinear` | src/crc32.cxx:32-40 | a byte step distributes over exclusive or |
| `Crc32.SlicesAreFeed` | src/crc32.cxx:351-362 | eight look-ups on two words are eight bytes fed one by one |
| `Crc32.CrcChains` | src/asio_service.cxx:523-531 | the CRC of a concatenation is the CRC of the second part seeded with that of the first |
| `Crc32.BurstDetected` | src/crc32.cxx:321-373 | messages that differ only inside four consecutive bytes have different CRCs for every seed |
| `CrcValues.Residue` | src/crc32.cxx:321-373 | every message followed by its own CRC has the CRC 0x2144DF1C, whatever the seed |
| `CrcValues.CheckValue` | src/crc32.cxx:321-373 | the CRC of the digits 1 to 9 is 0xCBF43926 |
| `CrcValues.TableEntries` | src/crc32.cxx:54-66 | the first table has 0x77073096 at 1 and 0xEDB88320 at 0x80 |
| `Codec.SyncReqRoundTripIff` | src/snapshot_sync_req.cxx:32-59 | a sync request that fits a buffer comes back exactly if no endpoint and no aux string holds a zero byte |
| `Codec.SnapshotRoundTripIff` | src/snapshot.cxx:32-51 | the same for a snapshot header, whatever follows it |
| `Codec.ConfigRoundTripIff` | src/cluster_config.cxx:25-76 | the same for a cluster config |
| `Codec.ServerRoundTripIff` | src/srv_config.cxx:30-59 | the same for a server |
| `Codec.ZeroInEndpoint` | src/srv_config.cxx:30-59 | a server with such an endpoint does not come back |
| `Codec.SyncReqLength` | src/snapshot_sync_req.cxx:50-53 | the size computed before allocating is the number of bytes written |
| `Codec.LERoundTrip` | src/buffer.cxx:319-343 | little-endian numbers come back |
| `Codec.LEForth` | src/buffer.cxx:319-343 | and every byte string is the one written for its number |
| `WireLayout.ServerLayout` | src/srv_config.cxx:42-59 | every field of a server at its offset |
| `WireLayout.ConfigLayout` | src/cluster_config.cxx:25-49 | every field of a config at its offset |
| `WireLayout.SnapshotLayout` | src/snapshot.cxx:41-51 | every field of a snapshot header at its offset |
| `WireLayout.SyncReqLayout` | src/snapshot_sync_req.cxx:50-59 | every field of a sync request at its offset |
| `Buffers.SerializeSyncReq` | src/snapshot_sync_req.cxx:50-59 | the writer fills the size it allocated exactly, or refuses a size of 2 GB or more |
| `Buffers.SerializeSnapshot` | src/snapshot.cxx:41-51 | likewise |
| `Buffers.SerializeConfig` | src/cluster_config.cxx:25-49 | likewise |
| `Buffers.SerializeServer` | src/srv_config.cxx:42-59 | likewise |
| `Buffers.DeserializeSyncReq` | src/snapshot_sync_req.cxx:32-48 | the reader returns what the format says, or fails where it runs out of bytes |
| `Buffers.DeserializeSnapshot` | src/snapshot.cxx:32-39 | likewise, leaving the rest unread |
| `Buffers.DeserializeConfig` | src/cluster_config.cxx:56-76 | likewise |
| `Buffers.DeserializeServer` | src/srv_config.cxx:30-40 | likewise |
| `Buffers.SyncReqRoundTrip` | src/snapshot_sync_req.cxx:32-59 | writing and reading with the two buffer interfaces gives the request back exactly under the zero-byte condition |
| `Buffers.Buffer.PutRaw` | src/buffer.cxx:392-400 | bytes are appended if they fit, and nothing changes otherwise |
| `Buffers.Buffer.PutNumber` | src/buffer.cxx:319-343 | the same for a little-endian number |
| `Buffers.Buffer.PutString` | src/buffer.cxx:345-357 | the same for a string and its terminating zero |
| `Buffers.Buffer.PutBytes` | src/buffer.cxx:301-317 | the same for a length and bytes; the length stays written if the bytes do not fit |
| `Buffers.BufferSerializer.GetNumber` | src/buffer_serializer.cxx:285-310 | shifting bytes in reads the little-endian value, or fails at the end |
| `Buffers.BufferSerializer.GetBytes` | src/buffer_serializer.cxx:347-351 | a length and that many bytes |
| `Buffers.BufferSerializer.GetCstr` | src/buffer_serializer.cxx:360-365 | the bytes before the next zero, which is consumed |
| `Rpc.RequestRoundTripIff` | src/asio_service.cxx:1228-1348 | decoding an encoded request returns header fields, meta string and entries exactly if the data is within 1 GB and every CRC sent is right, and is refused otherwise, for every option |
| `Rpc.FullRoundTrip` | src/asio_service.cxx:512-665 | with time stamps and payload CRCs on, nothing is lost |
| `Rpc.EntryBack` | src/asio_service.cxx:606-664 | an entry with a wrong CRC is refused, any other comes back |
| `Rpc.ParseEntryShrinks` | src/asio_service.cxx:606-664 | every round of the decode loop consumes at least the fixed part of an entry |
| `Rpc.HeadBack` | src/asio_service.cxx:1302-1311 | header fields come back |
| `RpcAccepted.AcceptedIsEncoding` | src/asio_service.cxx:347-665 | the converse: a message that is accepted and written as a sender writes marker, flags and CRC marks is the encoding of what was read from it |
| `RpcAccepted.Opened` | src/asio_service.cxx:347-410 | whatever is accepted is complete, is not marked as a response, announces at most 1 GB and carries the CRC of its header or of all of it |
| `RpcAccepted.MarkIsRead` | src/asio_service.cxx:606-664 | an entry that is accepted has a CRC exactly if the byte in front of it is not zero, and that CRC is right |
| `RpcDamage.HeaderDamageRefused` | src/asio_service.cxx:347-410 | without the whole-message option, a header changed inside four consecutive bytes is refused |
| `RpcDamage.MessageDamageRefused` | src/asio_service.cxx:512-545 | with it, so is a change anywhere in header fields and data that leaves the size field alone |
| `RpcDamage.CrcDamageRefused` | src/asio_service.cxx:347-410 | and any other value of the CRC field |
| `RpcDamage.PayloadDamageRefused` | src/asio_service.cxx:606-664 | an entry whose payload is changed inside four consecutive bytes is refused by the CRC it carries |
| `WireLayout.MessageLayout` | src/asio_service.cxx:1228-1348 | every header field, the CRC and each flag bit at its offset |
| `WireLayout.EntryLayout` | src/asio_service.cxx:1252-1296 | every field of an entry at its offset, for every option |
| `RpcSession.EncodeRequest` | src/asio_service.cxx:1228-1348 | the cursor-driven encoder, which overwrites the CRC field at the end, produces the format |
| `RpcSession.DecodeRequest` | src/asio_service.cxx:347-665 | the decoder accepts exactly what the format allows and returns it |
| `RpcSession.DecodeEntries` | src/asio_service.cxx:606-664 | the decode loop ends and returns the entries, or refuses a short or oversized one |
| `RpcSession.RequestRoundTrip` | src/asio_service.cxx:512-665 | encoder and decoder together give the request back, under the exact condition |
| `RpcSession.EntryObject.constructor` | src/log_entry.cxx:5-25 | the stored CRC is that of the payload exactly if a given one was |
| `RpcSession.EntryObject.ChangeBuf` | src/log_entry.cxx:27-34 | it is after every change of the payload |

## Left out

- CommitSafety.CommitIndexesAgree: asks that no raise counts an index without an acknowledgement of the term, which the code does not check; it is false otherwise (`StaleAck.CommitsDiverge`).
- CommitSafety.CommittedIsNeverRolledBack: asks the same of the run.
- CommitSafety.StepCommitInv: asks the same of the step.
- Custom quorum sizes that do not overlap, excluding snapshot receivers, two-node auto-adjustment and a custom `adjust_commit_index`: covered only where the commit index is computed, not in the cluster theorems.
- Learners, joining and leaving inside the cluster theorems: membership is fixed there; config changes are treated on their own.
- Snapshots and compaction inside the cluster theorems: the comparison of logs needs the last entry, and a fully compacted store returns the dummy; compaction is covered by the log store and by the commit executor.
- Pre-vote and priorities: only as guards and as the role change they cause, since they decide when a vote starts and not what it does.
- A second pauser: pause and resume by two threads at once share one flag and have no guarantee to state.
- CommitExec.InOrderExactlyOnce: without log rollback and snapshot install, which move the applied index by design, and with compaction at or below the applied index, where `snapshot_and_compact` keeps it.
- Config entries in rollback (`rollback_config`, `config_changing_`): bookkeeping without a property of its own.
- Sockets, SSL, timers, threads, logging, statistics and the response format of the RPC layer: plumbing, or the same kind of codec once more.
- Liveness of wake-ups and time-outs of client callbacks: depend on time.
- RaftServers.RaftServer.TryUpdatePrecommit: one atomic raise inside the handlers; the retry loop with its limit is `PrecommitRace.TryUpdate`.
- RaftServers.RaftServer.CreateAppendReq: the snapshot and out-of-range branches for compacted logs are not modelled, and the retry counter that limits a request to one entry is a parameter.
- RaftServers.RaftServer.ProcessAppendResp: stepping down for a leaving server or a planned successor is not modelled; an accepted response with next index 0, which no server sends, is excluded.
- LogStore.InMemLogStore.ApplyPack: takes the packed entries; decoding their bytes is not modelled.
- Buffers.BufferSerializer.GetCstr: a missing terminator is a failure here; the source reads on past the buffer.
- The put operations of `buffer_serializer`: they write the same bytes with the same bound check as those of `buffer`, which stand for both; big-endian mode is not used by these formats.
- RpcSession.EncodeRequest: sizes of 2 GB or more are refused; the wrap-around of the 32-bit size counter before the refusal is not modelled.
- 64-bit wrap-around of terms and indexes in the protocol: numbers are unbounded there and bounded in the formats.
