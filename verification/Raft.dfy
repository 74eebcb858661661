/**
 Server state and message handlers of the replication protocol, as functions on values.
 The RaftServer class is proved against these functions, and the cluster transition
 system takes its steps with them.
 */
module Raft {
  import opened Basics
  import opened LogEntries

  datatype Role = Follower | Candidate | Leader

  /** What a server remembers about one peer. */
  datatype Peer = Peer(next: nat, matched: nat)

  datatype Server = Server(
    id: nat,
    term: nat,
    votedFor: int,            // -1 if not voted in this term
    role: Role,
    log: Log,                 // log[i] is the entry at index i + 1
    precommit: nat,
    quickCommit: nat,
    smCommit: nat,
    votesGranted: nat,
    votesResponded: nat,
    electionCompleted: bool,
    peers: map<nat, Peer>)

  datatype VoteReq = VoteReq(src: nat, dst: nat, term: nat, lastTerm: nat, lastIdx: nat)

  /** `reqTerm` ties a response to the request it answers; `term` is the responder's. */
  datatype VoteResp = VoteResp(src: nat, dst: nat, reqTerm: nat, term: nat, accepted: bool)

  datatype AppendReq = AppendReq(
    src: nat, dst: nat, term: nat,
    prevIdx: nat, prevTerm: nat, entries: seq<LogEntry>, commit: nat)

  datatype AppendResp = AppendResp(
    src: nat, dst: nat, term: nat, next: nat, accepted: bool, noRewind: bool)

  // ----- quorums, role and term changes

  function NumVoting(s: Server): nat { |s.peers| + 1 }

  /** Default quorum size, excluding the server itself. */
  function Quorum(n: nat): nat { n / 2 }

  function BecomeFollower(s: Server): Server {
    s.(role := Follower)
  }

  function UpdateTerm(s: Server, term: nat): Server {
    if term > s.term then
      BecomeFollower(s.(term := term, votedFor := -1, electionCompleted := false,
                        votesGranted := 0, votesResponded := 0))
    else s
  }

  function Commit(s: Server, target: nat): Server {
    s.(quickCommit := Max(s.quickCommit, target))
  }

  /** A server without peers commits what it has stored; it never sees a response. */
  function CommitIfAlone(s: Server): Server {
    if s.peers == map[] then Commit(s, s.precommit) else s
  }

  /** The config entry a new leader appends in its own term. */
  function OwnTermConf(term: nat, conf: LogEntry): LogEntry {
    conf.(term := term, valType := CONF)
  }

  function BecomeLeader(s: Server, conf: LogEntry): Server {
    var log := s.log + [OwnTermConf(s.term, conf)];
    CommitIfAlone(s.(
      role := Leader,
      peers := map p | p in s.peers :: s.peers[p].(next := |s.log| + 1),
      log := log,
      precommit := |log|))
  }

  /** Volatile state is lost; term, vote and log are read back. */
  function Restart(s: Server, lastCommit: nat): Server {
    s.(role := Follower, precommit := |s.log|, quickCommit := lastCommit, smCommit := lastCommit,
       votesGranted := 0, votesResponded := 0, electionCompleted := true,
       peers := map p | p in s.peers :: Peer(0, 0))
  }

  // ----- votes

  /** New term, own vote, counters restarted; the server asks every peer next. */
  function Candidacy(s: Server): Server {
    s.(term := s.term + 1, votedFor := s.id, role := Candidate,
       votesGranted := 1, votesResponded := 1, electionCompleted := false)
  }

  function Ballot(s: Server, dst: nat): VoteReq {
    VoteReq(s.id, dst, s.term, LastTerm(s.log), |s.log|)
  }

  /** The voter's rule: the candidate's log is at least as new as mine. */
  predicate UpToDate(lastTerm: nat, lastIdx: nat, mine: Log) {
    lastTerm > LastTerm(mine) || (lastTerm == LastTerm(mine) && |mine| <= lastIdx)
  }

  predicate Grants(s: Server, m: VoteReq, priorityOk: bool) {
    && m.term == s.term
    && UpToDate(m.lastTerm, m.lastIdx, s.log)
    && (s.votedFor == m.src || s.votedFor == -1)
    && priorityOk
  }

  /** Body of the vote handler, after the term update. */
  function DecideVote(s: Server, m: VoteReq, priorityOk: bool): (Server, VoteResp) {
    if Grants(s, m, priorityOk) then
      (s.(votedFor := m.src), VoteResp(s.id, m.src, m.term, s.term, true))
    else
      (s, VoteResp(s.id, m.src, m.term, s.term, false))
  }

  predicate CountsVote(s: Server, r: VoteResp) {
    !s.electionCompleted && r.term == s.term
  }

  /** Counters after a response that is counted. */
  function CountVote(s: Server, r: VoteResp): Server
  {
    var granted := if r.accepted then s.votesGranted + 1 else s.votesGranted;
    s.(votesResponded := s.votesResponded + 1,
       votesGranted := granted,
       electionCompleted := s.votesResponded + 1 >= NumVoting(s) || granted >= Quorum(NumVoting(s)) + 1)
  }

  predicate Elected(s: Server) {
    s.votesGranted >= Quorum(NumVoting(s)) + 1
  }

  // ----- client entries

  function Stamped(e: LogEntry, term: nat, timestamp: nat): LogEntry {
    e.(term := term, timestamp := timestamp)
  }

  function StoreEntry(s: Server, e: LogEntry): Server {
    s.(log := s.log + [e])
  }

  function RaisePrecommit(s: Server, target: nat): Server {
    s.(precommit := Max(s.precommit, target))
  }

  // ----- append requests

  /** First index the next request to `p` carries; 0 stands for "unknown". */
  function NextFor(s: Server, p: nat): (next: nat)
    requires p in s.peers
    ensures next > 0
  {
    if s.peers[p].next == 0 then s.precommit + 1 else s.peers[p].next
  }

  function SetNext(s: Server, p: nat, next: nat): Server
    requires p in s.peers
  {
    s.(peers := s.peers[p := s.peers[p].(next := next)])
  }

  /** A new connection to a peer forgets what was known about it. */
  function ResetPeer(s: Server, p: nat): Server
    requires p in s.peers
  {
    if s.peers[p].next == 0 then s else s.(peers := s.peers[p := Peer(0, 0)])
  }

  /** The request with `count` entries; the server exits if the peer's index is beyond its own. */
  predicate CanSend(s: Server, p: nat, count: nat) {
    && p in s.peers
    && s.role == Leader
    && s.precommit <= |s.log|
    && NextFor(s, p) + count <= s.precommit + 1
  }

  function BuildAppendReq(s: Server, p: nat, count: nat): AppendReq
    requires CanSend(s, p, count)
  {
    var prev := NextFor(s, p) - 1;
    AppendReq(s.id, p, s.term, prev, TermAt(s.log, prev), s.log[prev..prev + count], s.quickCommit)
  }

  /** How many leading entries are already stored under the same term. */
  function SkipCount(log: Log, prev: nat, entries: seq<LogEntry>): (k: nat)
    requires prev <= |log|
    ensures k <= |entries| && prev + k <= |log|
    ensures forall i :: 0 <= i < k ==> log[prev + i].term == entries[i].term
    ensures k < |entries| && prev + k < |log| ==> log[prev + k].term != entries[k].term
    decreases |entries|
  {
    if entries == [] || prev >= |log| || log[prev].term != entries[0].term then 0
    else 1 + SkipCount(log, prev + 1, entries[1..])
  }

  /** Cutting a request after its first new entry does not change what is skipped. */
  lemma {:induction false} SkipPrefix(log: Log, prev: nat, entries: seq<LogEntry>, n: nat)
    requires prev <= |log| && SkipCount(log, prev, entries) <= n <= |entries|
    ensures SkipCount(log, prev, entries[..n]) == SkipCount(log, prev, entries)
    decreases |entries|
  {
    if entries != [] && prev < |log| && log[prev].term == entries[0].term {
      SkipPrefix(log, prev + 1, entries[1..], n - 1);
      assert entries[..n][1..] == entries[1..][..n - 1];
    }
  }

  /** Skip, truncate, overwrite and append; nothing happens if every entry is already there. */
  function Merge(log: Log, prev: nat, entries: seq<LogEntry>): Log
    requires prev <= |log|
  {
    var k := SkipCount(log, prev, entries);
    if k == |entries| then log else log[..prev + k] + entries[k..]
  }

  predicate LogOkay(log: Log, prevIdx: nat, prevTerm: nat) {
    prevIdx == 0 || (TermAt(log, prevIdx) != 0 && prevTerm == TermAt(log, prevIdx))
  }

  /** The stop flag is seen after the `stopAfter`-th write. */
  predicate Stops(log: Log, m: AppendReq, stopAfter: Option<nat>)
    requires m.prevIdx <= |log|
  {
    stopAfter.Some? && 1 <= stopAfter.value <= |m.entries| - SkipCount(log, m.prevIdx, m.entries)
  }

  /** How many of the request's entries the handler gets to. */
  function Reached(log: Log, m: AppendReq, stopAfter: Option<nat>): (n: nat)
    requires m.prevIdx <= |log|
    ensures n <= |m.entries|
  {
    if Stops(log, m, stopAfter) then SkipCount(log, m.prevIdx, m.entries) + stopAfter.value
    else |m.entries|
  }

  /** Commit indexes never point past the first overwritten entry. */
  function RollbackCommit(s: Server, m: AppendReq): Server
    requires m.prevIdx <= |s.log|
  {
    var k := SkipCount(s.log, m.prevIdx, m.entries);
    if k < |m.entries| && m.prevIdx + k < |s.log| then
      s.(quickCommit := Min(s.quickCommit, m.prevIdx + k), smCommit := Min(s.smCommit, m.prevIdx + k))
    else s
  }

  predicate Accepts(s: Server, m: AppendReq, declined: bool) {
    && m.term == s.term
    && s.role != Leader
    && LogOkay(s.log, m.prevIdx, m.prevTerm)
    && !declined
  }

  /** Log written by an accepted request. */
  function WriteEntries(s: Server, m: AppendReq, stopAfter: Option<nat>): Server
    requires m.prevIdx <= |s.log|
  {
    RollbackCommit(s, m).(log := Merge(s.log, m.prevIdx, m.entries[..Reached(s.log, m, stopAfter)]))
  }

  function FinishAppend(s: Server, m: AppendReq): Server {
    var target := m.prevIdx + |m.entries|;
    Commit(RaisePrecommit(s, target), Min(m.commit, target))
  }

  /**
   Body of the append handler, after the term update. `declined` is the verdict of the
   application callback. A leader that hears from another leader of its term answers nothing.
   */
  function HandleAppend(s: Server, m: AppendReq, declined: bool, stopAfter: Option<nat>)
    : (Server, Option<AppendResp>)
  {
    var deny := AppendResp(s.id, m.src, s.term, |s.log| + 1, false, false);
    var s1 := if m.term == s.term then BecomeFollower(s) else s;
    if m.term == s.term && s.role == Leader then (s, None)
    else if m.term < s.term || !LogOkay(s.log, m.prevIdx, m.prevTerm) then (s1, Some(deny))
    else if declined then (s1, Some(deny.(noRewind := true)))
    else
      var s2 := WriteEntries(s1, m, stopAfter);
      if Stops(s.log, m, stopAfter) then (s2, Some(deny))
      else (FinishAppend(s2, m),
            Some(deny.(next := m.prevIdx + |m.entries| + 1, accepted := true)))
  }

  /** Where the leader looks next after a rejection. */
  function Rewound(next: nat, r: AppendResp): nat {
    if 0 < r.next < next then r.next
    else if !r.noRewind && next > 0 then next - 1
    else next
  }

  /** Body of the response handler; `committed` is the index the commit rule yields. */
  function HandleAppendResp(s: Server, r: AppendResp, committed: nat): Server
    requires r.accepted ==> 0 < r.next
  {
    if r.src !in s.peers then s
    else if r.accepted then
      Commit(s.(peers := s.peers[r.src := Peer(r.next, r.next - 1)]), committed)
    else SetNext(s, r.src, Rewound(s.peers[r.src].next, r))
  }
}
