/**
 The server object: handlers that update its fields and its log store in place. Each
 handler is proved to do what the function of the Raft module says, so the cluster
 transition system takes exactly the steps of this class.
 */
module RaftServers {
  import opened Basics
  import opened LogEntries
  import opened LogStore
  import opened Raft
  import opened SmCalls
  import CommitIndex

  /** What there is to send to a peer: from its next index on, at most `maxAppend` entries or a single one. */
  function ToSend(s: Server, p: nat, maxAppend: nat, single: bool): seq<LogEntry>
    requires p in s.peers && s.precommit <= |s.log| && NextFor(s, p) <= s.precommit + 1
  {
    var prev := NextFor(s, p) - 1;
    s.log[prev..prev + Limit(prev, s.precommit, maxAppend, single)]
  }

  lemma NothingToBatch(hint: int)
    ensures IsBatch([], hint, [])
  {
  }

  /** How many entries there are to send after `last`. */
  function Limit(last: nat, precommit: nat, maxAppend: nat, single: bool): nat
    requires last <= precommit
  {
    var n := Min(precommit - last, maxAppend);
    if single then Min(n, 1) else n
  }

  lemma BatchIsSlice(log: Log, from: nat, to: nat, hint: int, batch: seq<LogEntry>)
    requires from <= to <= |log| && IsBatch(log[from..to], hint, batch)
    ensures |batch| <= to - from && batch == log[from..from + |batch|]
    ensures hint >= 0 && from < to ==> batch != []
  {
    hide Bytes;
    if hint >= 0 && from < to { BatchProgress(log[from..to], hint, batch); }
  }

  // ----- facts about prefixes of a request

  /** The skip count is the only index with its properties. */
  lemma SkipIs(log: Log, prev: nat, entries: seq<LogEntry>, k: nat)
    requires prev <= |log| && k <= |entries| && prev + k <= |log|
    requires forall i :: 0 <= i < k ==> log[prev + i].term == entries[i].term
    requires k < |entries| && prev + k < |log| ==> log[prev + k].term != entries[k].term
    ensures k == SkipCount(log, prev, entries)
  {
  }

  /** The calls made so far, from the end of the log down to `keep` + 1, extended by one. */
  lemma {:induction false} RollbacksPush(log: Log, keep: nat)
    requires keep < |log|
    ensures Rollbacks(log, keep) == Rollbacks(log, keep + 1) + Retract(keep + 1, log[keep])
    decreases |log|
  {
    if keep + 1 < |log| {
      RollbacksPush(log[..|log| - 1], keep);
    } else {
      assert Rollbacks(log[..keep], keep) == [];
    }
  }

  lemma RollbacksNone(log: Log)
    ensures Rollbacks(log, |log|) == []
  {
  }

  lemma {:induction false} PreCommitsPush(from: nat, entries: seq<LogEntry>, e: LogEntry)
    ensures PreCommits(from, entries + [e]) == PreCommits(from, entries) + Announce(from + |entries| + 1, e)
    decreases |entries|
  {
    hide PreCommits, Announce;
    var all := entries + [e];
    PreCommitsStep(from, entries);
    PreCommitsStep(from, all);
    if entries == [] {
      assert all[1..] == [];
      PreCommitsStep(from + 1, []);
    } else {
      assert all[1..] == entries[1..] + [e];
      PreCommitsPush(from + 1, entries[1..], e);
    }
  }

  lemma {:induction false} ClientPreCommitsPush(from: nat, entries: seq<LogEntry>, e: LogEntry)
    ensures ClientPreCommits(from, entries + [e]) ==
            ClientPreCommits(from, entries) + [PreCommit(from + |entries| + 1, e.payload)]
    decreases |entries|
  {
    if entries == [] {
      assert entries + [e] == [e];
      assert ClientPreCommits(from + 1, [e][1..]) == [];
    } else {
      assert (entries + [e])[1..] == entries[1..] + [e];
      ClientPreCommitsPush(from + 1, entries[1..], e);
    }
  }

  /** The log once entries `first` to `cnt` of a request have been written after `prev`. */
  function Progress(log: Log, prev: nat, entries: seq<LogEntry>, first: nat, cnt: nat): Log
    requires first <= cnt <= |entries| && prev + first <= |log|
  {
    if cnt == first then log else log[..prev + first] + entries[first..cnt]
  }

  lemma ProgressLog(log: Log, prev: nat, entries: seq<LogEntry>, first: nat, cnt: nat)
    requires first <= cnt < |entries| && prev + first <= |log|
    ensures prev + cnt <= |Progress(log, prev, entries, first, cnt)|
    ensures Progress(log, prev, entries, first, cnt)[..prev + cnt] + [entries[cnt]] ==
            Progress(log, prev, entries, first, cnt + 1)
  {
    assert entries[first..cnt + 1] == entries[first..cnt] + [entries[cnt]];
    if cnt > first {
      var done := log[..prev + first] + entries[first..cnt];
      assert done[..prev + cnt] == done;
    }
  }

  lemma ProgressStep(log: Log, prev: nat, entries: seq<LogEntry>, first: nat, cnt: nat)
    requires first <= cnt < |entries| && prev + first <= |log|
    ensures prev + cnt <= |Progress(log, prev, entries, first, cnt)|
    ensures Progress(log, prev, entries, first, cnt)[..prev + cnt] + [entries[cnt]] ==
            Progress(log, prev, entries, first, cnt + 1)
    ensures PreCommits(prev + first, entries[first..cnt + 1]) ==
            PreCommits(prev + first, entries[first..cnt]) + Announce(prev + cnt + 1, entries[cnt])
  {
    hide PreCommits, Progress;
    ProgressLog(log, prev, entries, first, cnt);
    assert entries[first..cnt + 1] == entries[first..cnt] + [entries[cnt]];
    PreCommitsPush(prev + first, entries[first..cnt], entries[cnt]);
  }

  /** State machine calls of a request that is written. */
  function WriteCalls(log: Log, m: AppendReq, stopAfter: Option<nat>): seq<SmCall>
    requires m.prevIdx <= |log|
  {
    AppendCalls(log, m.prevIdx, m.entries[..Reached(log, m, stopAfter)])
  }

  function RequestCalls(s: Server, m: AppendReq, declined: bool, stopAfter: Option<nat>): seq<SmCall> {
    if Accepts(s, m, declined) then WriteCalls(s.log, m, stopAfter) else []
  }

  lemma CutMerge(log: Log, prev: nat, entries: seq<LogEntry>, n: nat)
    requires prev <= |log| && SkipCount(log, prev, entries) <= n <= |entries|
    ensures Merge(log, prev, entries[..n]) == Progress(log, prev, entries, SkipCount(log, prev, entries), n)
  {
    hide SkipCount;
    var k := SkipCount(log, prev, entries);
    var cut := entries[..n];
    SkipPrefix(log, prev, entries, n);
    assert cut[k..] == entries[k..n];
    assert Merge(log, prev, cut) == if k == |cut| then log else log[..prev + k] + cut[k..];
  }

  lemma CutCalls(log: Log, prev: nat, entries: seq<LogEntry>, n: nat)
    requires prev <= |log| && SkipCount(log, prev, entries) <= n <= |entries|
    ensures var k := SkipCount(log, prev, entries);
            AppendCalls(log, prev, entries[..n]) ==
            (if k < n then Rollbacks(log, prev + k) else []) + PreCommits(prev + k, entries[k..n])
  {
    hide SkipCount, Rollbacks, PreCommits;
    SkipPrefix(log, prev, entries, n);
    var k := SkipCount(log, prev, entries);
    assert entries[..n][k..] == entries[k..n];
    PreCommitsStep(prev + k, entries[n..n]);
  }

  /** What a request writes and which calls it makes, in terms of its first new entry. */
  lemma WriteSplit(s: Server, m: AppendReq, stopAfter: Option<nat>)
    requires m.prevIdx <= |s.log|
    ensures var k := SkipCount(s.log, m.prevIdx, m.entries);
            && (Stops(s.log, m, stopAfter) <==> stopAfter.Some? && 1 <= stopAfter.value <= |m.entries| - k)
            && var n := if Stops(s.log, m, stopAfter) then k + stopAfter.value else |m.entries|;
            && RollbackCommit(s, m).log == s.log
            && WriteEntries(s, m, stopAfter)
               == RollbackCommit(s, m).(log := Progress(s.log, m.prevIdx, m.entries, k, n))
            && WriteCalls(s.log, m, stopAfter)
               == (if k < |m.entries| then Rollbacks(s.log, m.prevIdx + k) else [])
                  + PreCommits(m.prevIdx + k, m.entries[k..n])
  {
    hide SkipCount, Rollbacks, PreCommits, Merge, AppendCalls, Progress;
    var n := Reached(s.log, m, stopAfter);
    CutMerge(s.log, m.prevIdx, m.entries, n);
    CutCalls(s.log, m.prevIdx, m.entries, n);
  }

  lemma LeaderBeforeCommit(s: Server, s': Server, conf: LogEntry)
    requires s'.log == s.log + [OwnTermConf(s.term, conf)]
    requires s'.peers == map p | p in s.peers :: s.peers[p].(next := |s.log| + 1)
    requires s' == s.(role := Leader, peers := s'.peers, log := s'.log, precommit := |s.log| + 1)
    ensures CommitIfAlone(s') == Raft.BecomeLeader(s, conf)
  {
  }

  /** A heartbeat writes nothing. */
  lemma EmptyRequest(s: Server, m: AppendReq, stopAfter: Option<nat>)
    requires m.prevIdx <= |s.log| && m.entries == []
    ensures WriteEntries(s, m, stopAfter) == s && !Stops(s.log, m, stopAfter)
    ensures WriteCalls(s.log, m, stopAfter) == []
  {
  }

  // ----- client batches and elections, as functions

  function StampAll(entries: seq<LogEntry>, term: nat, timestamp: nat): seq<LogEntry> {
    seq(|entries|, i requires 0 <= i < |entries| => Stamped(entries[i], term, timestamp))
  }

  /** Every entry is stored under the current term; an empty batch leaves the server as it is. */
  function ClientBatch(s: Server, entries: seq<LogEntry>, timestamp: nat): Server {
    var log := s.log + StampAll(entries, s.term, timestamp);
    RaisePrecommit(s.(log := log), if entries == [] then 0 else |log|)
  }

  function LeadIfElected(s: Server, conf: LogEntry): Server {
    if Elected(s) then BecomeLeader(s.(electionCompleted := true), conf) else s
  }

  datatype ClientResult = Accepted(next: nat) | NotLeader | TermMismatch

  ghost predicate Enumerates(order: seq<nat>, ids: set<nat>) {
    && (forall i :: 0 <= i < |order| ==> order[i] in ids)
    && (forall p :: p in ids ==> p in order)
    && (forall i, j :: 0 <= i < j < |order| ==> order[i] != order[j])
  }

  /** The voting peers in the order they are visited. */
  function Views(peers: map<nat, Peer>, order: seq<nat>, silent: set<nat>, receiving: set<nat>)
    : seq<CommitIndex.PeerView>
    requires forall i :: 0 <= i < |order| ==> order[i] in peers
  {
    seq(|order|, i requires 0 <= i < |order| =>
      CommitIndex.PeerView(peers[order[i]].matched, true, order[i] !in silent, order[i] in receiving))
  }

  class RaftServer {
    const id: nat
    const store: InMemLogStore
    var term: nat
    var votedFor: int
    var role: Role
    var precommit: nat
    var quickCommit: nat
    var smCommit: nat
    var votesGranted: nat
    var votesResponded: nat
    var electionCompleted: bool
    var peers: map<nat, Peer>
    var calls: seq<SmCall>

    /** The log is not compacted. */
    ghost predicate Valid()
      reads this, store
    {
      store.Valid() && store.start == 1
    }

    ghost function State(): Server
      requires Valid()
      reads this, store
    {
      Server(id, term, votedFor, role, store.log, precommit, quickCommit, smCommit,
             votesGranted, votesResponded, electionCompleted, peers)
    }

    /** Starts from saved term and vote, the log and the last commit index; `before` is the state that was saved. */
    constructor (id: nat, store: InMemLogStore, term: nat, votedFor: int, peerIds: set<nat>,
                 lastCommit: nat, ghost before: Server)
      requires store.Valid() && store.start == 1
      requires before.id == id && before.term == term && before.votedFor == votedFor
      requires before.log == store.log && before.peers.Keys == peerIds
      ensures Valid() && this.store == store && State() == Restart(before, lastCommit) && calls == []
      ensures role == Follower && precommit == |store.log| && quickCommit == smCommit == lastCommit
      ensures peers.Keys == peerIds && forall p :: p in peers ==> peers[p] == Peer(0, 0)
    {
      var next := store.Next();
      this.id := id;
      this.store := store;
      this.term := term;
      this.votedFor := votedFor;
      role := Follower;
      precommit := next - 1;
      quickCommit := lastCommit;
      smCommit := lastCommit;
      votesGranted := 0;
      votesResponded := 0;
      electionCompleted := true;
      peers := map p | p in peerIds :: Peer(0, 0);
      calls := [];
    }

    // ----- role and term changes

    method BecomeFollower()
      requires Valid()
      modifies this`role
      ensures Valid() && State() == Raft.BecomeFollower(old(State()))
    {
      role := Follower;
    }

    method UpdateTerm(newTerm: nat) returns (updated: bool)
      requires Valid()
      modifies this`term, this`votedFor, this`role, this`votesGranted, this`votesResponded, this`electionCompleted
      ensures Valid() && State() == Raft.UpdateTerm(old(State()), newTerm)
      ensures updated == (newTerm > old(term))
    {
      updated := newTerm > term;
      if updated {
        role := Follower;
        term := newTerm;
        votedFor := -1;
        electionCompleted := false;
        votesGranted := 0;
        votesResponded := 0;
        BecomeFollower();
      }
    }

    method TryUpdatePrecommit(desired: nat)
      requires Valid()
      modifies this`precommit
      ensures Valid() && State() == RaisePrecommit(old(State()), desired)
    {
      if precommit < desired { precommit := desired; }
    }

    method Commit(target: nat)
      requires Valid()
      modifies this`quickCommit
      ensures Valid() && State() == Raft.Commit(old(State()), target)
    {
      if target > quickCommit { quickCommit := target; }
    }

    /** Appends when `index` is 0, otherwise overwrites and truncates. */
    method StoreLogEntry(e: LogEntry, index: nat) returns (at: nat)
      requires Valid() && index <= |store.log| + 1
      modifies this`precommit, store
      ensures Valid()
      ensures at == if index == 0 then |old(store.log)| + 1 else index
      ensures var log := old(store.log)[..at - 1] + [e];
              var s := old(State()).(log := log);
              State() == if e.valType == CONF && s.role == Leader then RaisePrecommit(s, at) else s
    {
      at := index;
      if index == 0 {
        at := store.Append(e);
      } else {
        store.WriteAt(index, e);
      }
      assert store.log == old(store.log)[..at - 1] + [e];
      if e.valType == CONF && role == Leader { TryUpdatePrecommit(at); }
    }

    method BecomeLeader(conf: LogEntry)
      requires Valid()
      modifies this`role, this`precommit, this`quickCommit, this`peers, store
      ensures Valid() && State() == Raft.BecomeLeader(old(State()), conf)
    {
      hide store.Valid, CommitIfAlone, Raft.BecomeLeader;
      ghost var s := State();
      role := Leader;
      var next := store.Next();
      precommit := next - 1;
      ResetPeers(next);
      var at := StoreLogEntry(conf.(term := term, valType := CONF), 0);
      assert s.log[..at - 1] == s.log;
      LeaderBeforeCommit(s, State(), conf);
      CommitAlone();
    }

    /** What a round of requests does first: without peers nothing will come back. */
    method CommitAlone()
      requires Valid()
      modifies this`quickCommit
      ensures Valid() && State() == CommitIfAlone(old(State()))
    {
      if |peers| == 0 || (|peers| + 1) / 2 == 0 { Commit(precommit); }
    }

    method ResetPeers(next: nat)
      requires Valid()
      modifies this`peers
      ensures peers == map p | p in old(peers) :: old(peers)[p].(next := next)
    {
      var todo := peers.Keys;
      while todo != {}
        invariant peers.Keys == old(peers).Keys && todo <= peers.Keys
        invariant forall p :: p in peers ==>
          peers[p] == if p in todo then old(peers)[p] else old(peers)[p].(next := next)
      {
        var p :| p in todo;
        peers := peers[p := peers[p].(next := next)];
        todo := todo - {p};
      }
    }

    // ----- votes

    /** `allowed` is the verdict on priority and grace period. */
    method InitiateVote(allowed: bool, conf: LogEntry) returns (requests: set<VoteReq>)
      requires Valid()
      modifies this, store
      ensures Valid() && calls == old(calls)
      ensures State() == if allowed then LeadIfElected(Candidacy(old(State())), conf) else old(State())
      ensures allowed && !Elected(Candidacy(old(State()))) ==> requests == set p | p in peers :: Ballot(State(), p)
    {
      hide store.Valid;
      requests := {};
      if allowed {
        term := term + 1;
        votedFor := -1;
        role := Candidate;
        votesGranted := 0;
        votesResponded := 0;
        electionCompleted := false;
        requests := RequestVote(conf);
      }
    }

    /** Votes for itself and asks the peers, unless its own vote is enough. */
    method RequestVote(conf: LogEntry) returns (requests: set<VoteReq>)
      requires Valid()
      modifies this, store
      ensures Valid() && calls == old(calls)
      ensures var s := old(State());
              var s1 := s.(votedFor := id, votesGranted := s.votesGranted + 1, votesResponded := s.votesResponded + 1);
              && State() == LeadIfElected(s1, conf)
              && (!Elected(s1) ==> requests == set p | p in s.peers :: Ballot(s1, p))
    {
      hide store.Valid, Raft.BecomeLeader;
      requests := {};
      votedFor := id;
      votesGranted := votesGranted + 1;
      votesResponded := votesResponded + 1;
      if votesGranted > (|peers| + 1) / 2 {
        electionCompleted := true;
        BecomeLeader(conf);
      } else {
        var last := store.LastEntry();
        var next := store.Next();
        requests := set p | p in peers :: VoteReq(id, p, term, last.term, next - 1);
      }
    }

    /** `priorityOk` is the verdict on the candidate's priority. */
    method ProcessVoteReq(m: VoteReq, priorityOk: bool) returns (resp: VoteResp)
      requires Valid()
      modifies this`term, this`votedFor, this`role, this`votesGranted, this`votesResponded, this`electionCompleted
      ensures Valid()
      ensures (State(), resp) == DecideVote(Raft.UpdateTerm(old(State()), m.term), m, priorityOk)
    {
      var _ := UpdateTerm(m.term);
      var mine := store.LastEntry();
      var next := store.Next();
      var logOkay := m.lastTerm > mine.term || (m.lastTerm == mine.term && next - 1 <= m.lastIdx);
      var grant := m.term == term && logOkay && (votedFor == m.src || votedFor == -1);
      if grant && priorityOk { votedFor := m.src; }
      resp := VoteResp(id, m.src, m.term, term, grant && priorityOk);
    }

    /** A higher term in the response ends its processing. */
    method ProcessVoteResp(r: VoteResp, conf: LogEntry)
      requires Valid()
      modifies this, store
      ensures Valid() && calls == old(calls)
      ensures State() == var s := old(State());
                         if r.term > s.term then Raft.UpdateTerm(s, r.term)
                         else if CountsVote(s, r) then LeadIfElected(CountVote(s, r), conf)
                         else s
    {
      hide store.Valid, Raft.BecomeLeader;
      var updated := UpdateTerm(r.term);
      if updated || electionCompleted || r.term != term { return; }
      votesResponded := votesResponded + 1;
      if r.accepted { votesGranted := votesGranted + 1; }
      var voting := |peers| + 1;
      if votesResponded >= voting { electionCompleted := true; }
      if votesGranted >= voting / 2 + 1 {
        electionCompleted := true;
        BecomeLeader(conf);
      }
    }

    // ----- clients

    method HandleCliReq(entries: seq<LogEntry>, timestamp: nat, expectedTerm: nat, writePaused: bool)
      returns (result: ClientResult)
      requires Valid()
      modifies this`precommit, this`calls, store
      ensures Valid()
      ensures result.NotLeader? <==> old(role) != Leader || writePaused
      ensures result.TermMismatch? <==> !result.NotLeader? && expectedTerm != 0 && expectedTerm != old(term)
      ensures !result.Accepted? ==> State() == old(State()) && calls == old(calls)
      ensures result.Accepted? ==>
                && State() == ClientBatch(old(State()), entries, timestamp)
                && result.next == |State().log| + 1
                && |State().log| == |old(State()).log| + |entries|
                && (forall i :: 0 <= i < |entries| ==>
                      State().log[|old(State()).log| + i] == entries[i].(term := old(term), timestamp := timestamp))
                && calls == old(calls)
                   + ClientPreCommits(|old(State()).log|, StampAll(entries, old(term), timestamp))
    {
      if role != Leader || writePaused { return NotLeader; }
      if expectedTerm != 0 && expectedTerm != term { return TermMismatch; }
      var last := AppendClientEntries(entries, timestamp);
      assert StampAll(entries, term, timestamp)[..|entries|] == StampAll(entries, term, timestamp);
      TryUpdatePrecommit(last);
      var next := store.Next();
      result := Accepted(next);
    }

    /** The first `i` entries of a batch are stored and announced, and nothing else has happened since `s`. */
    ghost predicate Stored(s: Server, before: seq<SmCall>, batch: seq<LogEntry>, i: nat)
      requires i <= |batch|
      reads this, store
    {
      && Valid()
      && State() == s.(log := s.log + batch[..i], precommit := precommit)
      && s.precommit <= precommit <= Max(s.precommit, if i == 0 then 0 else |s.log| + i)
      && calls == before + ClientPreCommits(|s.log|, batch[..i])
    }

    method AppendClientEntries(entries: seq<LogEntry>, timestamp: nat) returns (last: nat)
      requires Valid()
      modifies this`precommit, this`calls, store
      ensures Stored(old(State()), old(calls), StampAll(entries, old(term), timestamp), |entries|)
      ensures last == if entries == [] then 0 else |State().log|
    {
      ghost var s := State();
      ghost var batch := StampAll(entries, term, timestamp);
      assert Stored(s, calls, batch, 0);
      hide store.Valid, Stored, ClientPreCommits;
      last := 0;
      var i := 0;
      while i < |entries|
        invariant Valid() && 0 <= i <= |entries| && Stored(s, old(calls), batch, i)
        invariant last == if i == 0 then 0 else |State().log|
      {
        last := StoreClientEntry(s, old(calls), batch, i, entries[i].(term := term, timestamp := timestamp));
        i := i + 1;
      }
    }

    method StoreClientEntry(ghost s: Server, ghost before: seq<SmCall>, ghost batch: seq<LogEntry>, ghost i: nat,
                            e: LogEntry) returns (at: nat)
      requires i < |batch| && Stored(s, before, batch, i) && e == batch[i]
      modifies this`precommit, this`calls, store
      ensures Valid() && Stored(s, before, batch, i + 1) && at == |State().log|
    {
      hide store.Valid, ClientPreCommits;
      assert batch[..i + 1] == batch[..i] + [e];
      ClientPreCommitsPush(|s.log|, batch[..i], e);
      at := StoreLogEntry(e, 0);
      calls := calls + [PreCommit(at, e.payload)];
    }

    // ----- append requests

    method SkipExisting(prev: nat, entries: seq<LogEntry>) returns (cnt: nat)
      requires Valid() && prev <= |store.log|
      ensures cnt == SkipCount(store.log, prev, entries)
    {
      cnt := 0;
      ghost var log := store.log;
      var next := store.Next();
      while prev + 1 + cnt < next && cnt < |entries|
        invariant cnt <= |entries| && prev + cnt <= |log|
        invariant forall i :: 0 <= i < cnt ==> log[prev + i].term == entries[i].term
      {
        var mine := store.TermAt(prev + 1 + cnt);
        if mine != entries[cnt].term { break; }
        cnt := cnt + 1;
      }
      SkipIs(log, prev, entries, cnt);
    }

    /** Undoes every entry above `keep`, newest first, before any of them is overwritten. */
    method RollBack(keep: nat)
      requires Valid() && keep < |store.log|
      modifies this`quickCommit, this`smCommit, this`calls
      ensures Valid()
      ensures quickCommit == Min(old(quickCommit), keep) && smCommit == Min(old(smCommit), keep)
      ensures calls == old(calls) + Rollbacks(store.log, keep)
    {
      if quickCommit > keep { quickCommit := keep; }
      if smCommit > keep { smCommit := keep; }
      RollBackCalls(keep);
    }

    method RollBackCalls(keep: nat)
      requires Valid() && keep < |store.log|
      modifies this`calls
      ensures calls == old(calls) + Rollbacks(store.log, keep)
    {
      hide store.Valid, Rollbacks;
      var next := store.Next();
      var idx := next - 1;
      RollbacksNone(store.log);
      while idx > keep
        invariant keep <= idx <= |store.log|
        invariant calls == old(calls) + Rollbacks(store.log, idx)
      {
        RollbacksPush(store.log, idx - 1);
        var e := store.EntryAt(idx);
        if e.valType == APP_LOG { calls := calls + [Rollback(idx, e.payload)]; }
        idx := idx - 1;
      }
    }

    /** Entries `first` to `cnt` of a request are written and announced, and nothing else has happened since `s`. */
    ghost predicate Wrote(s: Server, before: seq<SmCall>, prev: nat, entries: seq<LogEntry>, first: nat, cnt: nat)
      requires first <= cnt <= |entries| && prev + first <= |s.log|
      reads this, store
    {
      && Valid()
      && State() == s.(log := Progress(s.log, prev, entries, first, cnt))
      && calls == before + PreCommits(prev + first, entries[first..cnt])
    }

    /** Overwrites, then appends; stops early if the stop flag is seen after a write. */
    method WriteFrom(prev: nat, entries: seq<LogEntry>, first: nat, stopAfter: Option<nat>) returns (stopped: bool)
      requires Valid() && role != Leader && first <= |entries| && prev + first <= |store.log|
      modifies this`precommit, this`calls, store
      ensures stopped <==> stopAfter.Some? && 1 <= stopAfter.value <= |entries| - first
      ensures Wrote(old(State()), old(calls), prev, entries, first,
                    if stopped then first + stopAfter.value else |entries|)
    {
      ghost var s := State();
      assert Wrote(s, calls, prev, entries, first, first);
      hide store.Valid, Wrote;
      var cnt;
      cnt, stopped := Overwrite(s, calls, prev, entries, first, stopAfter);
      if !stopped {
        stopped := AppendRest(s, old(calls), prev, entries, first, cnt, stopAfter);
      }
    }

    method Overwrite(ghost s: Server, ghost before: seq<SmCall>, prev: nat, entries: seq<LogEntry>, first: nat,
                     stopAfter: Option<nat>)
      returns (cnt: nat, stopped: bool)
      requires Valid() && role != Leader && first <= |entries| && prev + first <= |s.log|
      requires prev + first <= |store.log| && Wrote(s, before, prev, entries, first, first)
      modifies this`precommit, this`calls, store
      ensures first <= cnt <= |entries| && Valid() && Wrote(s, before, prev, entries, first, cnt)
      ensures stopped <==> stopAfter.Some? && 1 <= stopAfter.value <= cnt - first
      ensures stopped ==> stopAfter.value == cnt - first
      ensures cnt < |entries| ==> |store.log| == prev + cnt
    {
      hide store.Valid, Wrote;
      cnt := first;
      stopped := false;
      var next := store.Next();
      while prev + 1 + cnt < next && cnt < |entries|
        invariant first <= cnt <= |entries| && Valid() && Wrote(s, before, prev, entries, first, cnt)
        invariant next == |store.log| + 1 && prev + cnt < next
        invariant !(stopAfter.Some? && 1 <= stopAfter.value <= cnt - first)
      {
        WriteNext(s, before, prev, entries, first, cnt, prev + 1 + cnt);
        cnt := cnt + 1;
        next := store.Next();
        if stopAfter == Some(cnt - first) { return cnt, true; }
      }
    }

    method AppendRest(ghost s: Server, ghost before: seq<SmCall>, ghost prev: nat, entries: seq<LogEntry>, first: nat,
                      from: nat, stopAfter: Option<nat>)
      returns (stopped: bool)
      requires Valid() && role != Leader && first <= from <= |entries| && prev + first <= |s.log|
      requires Wrote(s, before, prev, entries, first, from)
      requires from < |entries| ==> |store.log| == prev + from
      requires !(stopAfter.Some? && 1 <= stopAfter.value <= from - first)
      modifies this`precommit, this`calls, store
      ensures stopped <==> stopAfter.Some? && 1 <= stopAfter.value <= |entries| - first
      ensures Wrote(s, before, prev, entries, first, if stopped then first + stopAfter.value else |entries|)
    {
      hide store.Valid, Wrote;
      var cnt := from;
      stopped := false;
      while cnt < |entries|
        invariant from <= cnt <= |entries| && Valid() && Wrote(s, before, prev, entries, first, cnt)
        invariant cnt < |entries| ==> |store.log| == prev + cnt
        invariant !(stopAfter.Some? && 1 <= stopAfter.value <= cnt - first)
      {
        WriteNext(s, before, prev, entries, first, cnt, 0);
        cnt := cnt + 1;
        if stopAfter == Some(cnt - first) { return true; }
      }
    }

    /** Stores one entry of a request and announces it if it is an application entry. */
    method WriteNext(ghost s: Server, ghost before: seq<SmCall>, ghost prev: nat, entries: seq<LogEntry>,
                     ghost first: nat, cnt: nat, index: nat)
      requires first <= cnt < |entries| && prev + first <= |s.log|
      requires Wrote(s, before, prev, entries, first, cnt) && role != Leader
      requires if index == 0 then |store.log| == prev + cnt else index == prev + cnt + 1
      modifies this`precommit, this`calls, store
      ensures Valid() && Wrote(s, before, prev, entries, first, cnt + 1) && |store.log| == prev + cnt + 1
    {
      hide store.Valid, PreCommits, Progress;
      ProgressStep(s.log, prev, entries, first, cnt);
      ghost var log := store.log;
      var e := entries[cnt];
      var at := StoreLogEntry(e, index);
      assert log[..at - 1] == log[..prev + cnt];
      if e.valType == APP_LOG { calls := calls + [PreCommit(at, e.payload)]; }
    }

    /** Skip, roll back, overwrite and append. */
    method WriteRequest(m: AppendReq, stopAfter: Option<nat>) returns (stopped: bool)
      requires Valid() && role != Leader && m.prevIdx <= |store.log|
      modifies this`precommit, this`quickCommit, this`smCommit, this`calls, store
      ensures Valid() && stopped == Stops(old(store.log), m, stopAfter)
      ensures State() == WriteEntries(old(State()), m, stopAfter)
      ensures calls == old(calls) + WriteCalls(old(store.log), m, stopAfter)
    {
      hide store.Valid, SkipCount, Rollbacks, PreCommits, Progress, Stops, WriteEntries, WriteCalls, RollbackCommit;
      WriteSplit(State(), m, stopAfter);
      var cnt := SkipExisting(m.prevIdx, m.entries);
      RollBackFrom(m, cnt);
      stopped := WriteFrom(m.prevIdx, m.entries, cnt, stopAfter);
    }

    /** Rolls back only if there is something to overwrite. */
    method RollBackFrom(m: AppendReq, cnt: nat)
      requires Valid() && m.prevIdx <= |store.log| && cnt == SkipCount(store.log, m.prevIdx, m.entries)
      modifies this`quickCommit, this`smCommit, this`calls
      ensures Valid() && State() == RollbackCommit(old(State()), m)
      ensures calls == old(calls) + if cnt < |m.entries| then Rollbacks(store.log, m.prevIdx + cnt) else []
    {
      hide store.Valid, SkipCount;
      var next := store.Next();
      if next - 1 >= m.prevIdx + 1 + cnt && cnt < |m.entries| {
        RollBack(m.prevIdx + cnt);
      }
    }

    method TermForLog(index: nat) returns (t: nat)
      requires Valid()
      ensures t == TermAt(store.log, index)
    {
      if index == 0 { return 0; }
      t := store.TermAt(index);
    }

    method CheckLog(m: AppendReq) returns (okay: bool)
      requires Valid()
      ensures okay == LogOkay(store.log, m.prevIdx, m.prevTerm)
      ensures okay ==> m.prevIdx <= |store.log|
    {
      hide store.Valid;
      var next := store.Next();
      var logTerm := 0;
      if m.prevIdx < next { logTerm := TermForLog(m.prevIdx); }
      okay := m.prevIdx == 0 || (logTerm != 0 && m.prevTerm == logTerm);
    }

    method FinishRequest(m: AppendReq)
      requires Valid()
      modifies this`precommit, this`quickCommit
      ensures Valid() && State() == FinishAppend(old(State()), m)
    {
      var target := m.prevIdx + |m.entries|;
      TryUpdatePrecommit(target);
      Commit(Min(m.commit, target));
    }

    method HandleAppendEntries(m: AppendReq, declined: bool, stopAfter: Option<nat>) returns (resp: Option<AppendResp>)
      requires Valid() && m.term <= term
      modifies this`role, this`precommit, this`quickCommit, this`smCommit, this`calls, store
      ensures Valid() && (State(), resp) == HandleAppend(old(State()), m, declined, stopAfter)
      ensures resp.None? <==> old(role) == Leader && m.term == old(term)
      ensures calls == old(calls) + RequestCalls(old(State()), m, declined, stopAfter)
    {
      hide store.Valid, WriteEntries, Stops, WriteCalls, LogOkay, FinishAppend;
      if m.term == term {
        if role == Candidate {
          BecomeFollower();
        } else if role == Leader {
          return None;
        }
      }
      var next := store.Next();
      var deny := AppendResp(id, m.src, term, next, false, false);
      var logOkay := CheckLog(m);
      if m.term < term || !logOkay { return Some(deny); }
      if declined { return Some(deny.(noRewind := true)); }
      if m.entries != [] {
        var stopped := WriteRequest(m, stopAfter);
        if stopped { return Some(deny); }
      } else {
        EmptyRequest(State(), m, stopAfter);
      }
      FinishRequest(m);
      resp := Some(deny.(next := m.prevIdx + |m.entries| + 1, accepted := true));
    }

    /** A request first brings the term up to date. */
    method ProcessAppendReq(m: AppendReq, declined: bool, stopAfter: Option<nat>) returns (resp: Option<AppendResp>)
      requires Valid()
      modifies this, store
      ensures Valid()
      ensures (State(), resp) == HandleAppend(Raft.UpdateTerm(old(State()), m.term), m, declined, stopAfter)
      ensures calls == old(calls) + RequestCalls(Raft.UpdateTerm(old(State()), m.term), m, declined, stopAfter)
    {
      var _ := UpdateTerm(m.term);
      resp := HandleAppendEntries(m, declined, stopAfter);
    }

    /** Before the next request to a peer whose connection was renewed. */
    method ResetPeer(p: nat)
      requires Valid() && p in peers
      modifies this`peers
      ensures Valid() && State() == Raft.ResetPeer(old(State()), p)
    {
      if peers[p].next != 0 {
        peers := peers[p := Peer(0, 0)];
      }
    }

    method Slice(from: nat, to: nat, hint: int) returns (entries: seq<LogEntry>)
      requires Valid() && 1 <= from <= to <= |store.log| + 1
      ensures IsBatch(store.log[from - 1..to - 1], hint, entries)
      ensures |entries| <= to - from && entries == store.log[from - 1..from - 1 + |entries|]
      ensures hint >= 0 && from < to ==> entries != []
    {
      hide store.Valid, IsBatch, Range;
      entries := store.LogEntriesExt(from, to, hint);
      BatchIsSlice(store.log, from - 1, to - 1, hint, entries);
    }

    /** The entries after `last`, at most `maxAppend` or a single one, cut at the size hint. */
    method Batch(last: nat, maxAppend: nat, single: bool, hint: int) returns (entries: seq<LogEntry>)
      requires Valid() && last <= precommit <= |store.log|
      ensures var n := Limit(last, precommit, maxAppend, single);
              && IsBatch(store.log[last..last + n], hint, entries) && (hint == 0 ==> |entries| == n)
              && |entries| <= n && entries == store.log[last..last + |entries|]
      ensures hint >= 0 && maxAppend > 0 && last < precommit ==> entries != []
    {
      hide store.Valid;
      var upto := precommit + 1;
      var end := Min(upto, last + 1 + maxAppend);
      if single && last + 2 < end { end := Min(upto, last + 2); }
      entries := [];
      NothingToBatch(hint);
      assert store.log[last..last] == [];
      if last + 1 < upto {
        entries := Slice(last + 1, end, hint);
      }
    }

    /**
     The next request for a peer: up to `maxAppend` entries, a single one while the peer does
     not make progress, cut by the peer's size hint. None if the peer's index is beyond the
     leader's own, where the source exits.
     */
    method CreateAppendReq(p: nat, maxAppend: nat, single: bool, hint: int) returns (req: Option<AppendReq>)
      requires Valid() && p in peers && role == Leader && precommit <= |store.log|
      modifies this`peers
      ensures Valid() && State() == SetNext(old(State()), p, NextFor(old(State()), p))
      ensures req.Some? <==> NextFor(old(State()), p) <= precommit + 1
      ensures req.Some? ==>
                && CanSend(old(State()), p, |req.value.entries|)
                && req.value == BuildAppendReq(old(State()), p, |req.value.entries|)
                && IsBatch(ToSend(old(State()), p, maxAppend, single), hint, req.value.entries)
                && (hint == 0 ==>
                      var limit := if single then Min(1, maxAppend) else maxAppend;
                      |req.value.entries| == Min(precommit - req.value.prevIdx, limit))
                && (hint >= 0 && maxAppend > 0 && NextFor(old(State()), p) <= precommit ==> req.value.entries != [])
    {
      hide store.Valid, LogEntries.TermAt, IsBatch;
      var upto := precommit + 1;
      if peers[p].next == 0 {
        peers := peers[p := peers[p].(next := upto)];
      }
      var last := peers[p].next - 1;
      if last >= upto { return None; }
      var entries := Batch(last, maxAppend, single, hint);
      var lastTerm := TermForLog(last);
      req := Some(AppendReq(id, p, term, last, lastTerm, entries, quickCommit));
    }

    /**
     `order` is the order in which the peers are visited; `silent` and `receiving` are the
     peers that do not respond and those that receive a snapshot.
     */
    method ProcessAppendResp(r: AppendResp, order: seq<nat>, silent: set<nat>, receiving: set<nat>,
                             params: CommitIndex.Params) returns (committed: nat)
      requires Valid() && Enumerates(order, peers.Keys) && (r.accepted ==> 0 < r.next)
      modifies this
      ensures Valid() && calls == old(calls)
      ensures State() == if r.term > old(term) then Raft.UpdateTerm(old(State()), r.term)
                         else HandleAppendResp(old(State()), r, committed)
      ensures r.term <= old(term) && r.src in peers && r.accepted ==>
                var views := Views(peers, order, silent, receiving);
                CommitIndex.IsCommitPoint([precommit] + CommitIndex.Regular(views),
                                          CommitIndex.QuorumIndex(views, params), committed)
    {
      hide store.Valid;
      committed := 0;
      var updated := UpdateTerm(r.term);
      if updated || r.src !in peers { return; }
      if r.accepted {
        peers := peers[r.src := Peer(r.next, r.next - 1)];
        committed := CommitIndex.ExpectedCommitIndex(precommit, Views(peers, order, silent, receiving), params);
        Commit(committed);
      } else {
        var next := peers[r.src].next;
        if r.next > 0 && next > r.next {
          peers := peers[r.src := peers[r.src].(next := r.next)];
        } else if !r.noRewind && next > 0 {
          peers := peers[r.src := peers[r.src].(next := next - 1)];
        }
      }
    }
  }
}
