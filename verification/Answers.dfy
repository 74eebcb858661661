/** Counting the answers of an election: it never runs past the members and closes with the last of them. */
module Answers {
  import opened Basics
  import opened LogEntries
  import opened Raft
  import opened Cluster
  import opened ClusterLead
  import opened Alone

  /** No more answers than members, no more grants than answers, and an answer missing while the election is open. */
  predicate CountOk(s: Server) {
    && s.votesGranted <= s.votesResponded <= NumVoting(s)
    && (!s.electionCompleted ==> s.votesResponded < NumVoting(s))
  }

  predicate CountInv(c: State) {
    forall v :: 0 <= v < |c.servers| ==> CountOk(c.servers[v])
  }

  /** Server v changes alone and keeps its count in order. */
  predicate Counts(c: State, c': State, v: nat) {
    Touches(c, c', v) && CountOk(c'.servers[v])
  }

  lemma KeepCount(c: State, c': State, v: nat)
    requires CountInv(c) && Counts(c, c', v)
    ensures CountInv(c')
  {
    hide CountOk;
  }

  lemma LeaderCounts(s: Server, conf: LogEntry)
    ensures var s' := BecomeLeader(s, conf);
            && NumVoting(s') == NumVoting(s) && s'.electionCompleted == s.electionCompleted
            && s'.votesGranted == s.votesGranted && s'.votesResponded == s.votesResponded
  {
    var peers := map p | p in s.peers :: s.peers[p].(next := |s.log| + 1);
    assert BecomeLeader(s, conf).peers == peers;
    assert |peers| == |s.peers| by { assert peers.Keys == s.peers.Keys; }
  }

  lemma CrownCounts(c: State, v: nat, conf: LogEntry)
    requires v < |c.servers| && c.servers[v].votesGranted <= c.servers[v].votesResponded <= NumVoting(c.servers[v])
    ensures Counts(c, Crown(c, v, conf), v)
  {
    hide BecomeLeader;
    LeaderCounts(c.servers[v].(electionCompleted := true), conf);
  }

  lemma StartVoteCounts(c: State, v: nat, conf: LogEntry)
    requires v < |c.servers|
    ensures Counts(c, CrownIfElected(Stand(c, v), v, conf), v)
  {
    hide Crown;
    CrownCounts(Stand(c, v), v, conf);
  }

  lemma VoteRespCounts(c: State, r: VoteResp, conf: LogEntry)
    requires r.dst < |c.servers| && CountOk(c.servers[r.dst])
    ensures Counts(c, TakeVoteResp(c, r, conf), r.dst)
  {
    hide Crown, TakeVote, BumpTerm, CountsVote, CountVote;
    TakenCounts(c, r);
    BumpCounts(c, r.dst, r.term);
    if CountsVote(c.servers[r.dst], r) { CrownCounts(TakeVote(c, r), r.dst, conf); }
  }

  lemma BumpCounts(c: State, v: nat, term: nat)
    requires v < |c.servers| && CountOk(c.servers[v])
    ensures Counts(c, BumpTerm(c, v, term), v)
  {
  }

  /** A counted answer leaves the election open only if it was neither the last one nor the deciding one. */
  lemma TakenCounts(c: State, r: VoteResp)
    requires r.dst < |c.servers| && CountOk(c.servers[r.dst])
    ensures Counts(c, TakeVote(c, r), r.dst)
  {
  }

  /** An append request leaves the count and the peers alone. */
  lemma AppendCount(s: Server, m: AppendReq, declined: bool, stopAfter: Option<nat>)
    ensures var s' := HandleAppend(s, m, declined, stopAfter).0;
            && s'.votesGranted == s.votesGranted && s'.votesResponded == s.votesResponded
            && s'.electionCompleted == s.electionCompleted && s'.peers == s.peers
  {
    hide WriteEntries, Stops;
    if m.prevIdx <= |s.log| { WrittenCount(if m.term == s.term then BecomeFollower(s) else s, m, stopAfter); }
  }

  lemma WrittenCount(s: Server, m: AppendReq, stopAfter: Option<nat>)
    requires m.prevIdx <= |s.log|
    ensures var s' := WriteEntries(s, m, stopAfter);
            s' == s.(log := s'.log, quickCommit := s'.quickCommit, smCommit := s'.smCommit)
  {
    hide Merge, SkipCount;
  }

  lemma AppendReqCounts(c: State, m: AppendReq, declined: bool, stopAfter: Option<nat>)
    requires m.dst < |c.servers| && CountOk(c.servers[m.dst])
    ensures Counts(c, AnswerAppend(BumpTerm(c, m.dst, m.term), m, declined, stopAfter), m.dst)
  {
    hide HandleAppend;
    AppendCount(BumpTerm(c, m.dst, m.term).servers[m.dst], m, declined, stopAfter);
  }

  lemma AppendRespCounts(c: State, r: AppendResp, committed: nat)
    requires r.dst < |c.servers| && (r.accepted ==> 0 < r.next) && CountOk(c.servers[r.dst])
    ensures Counts(c, TakeAppendResp(c, r, committed), r.dst)
  {
  }

  lemma VoteReqCounts(c: State, m: VoteReq, priorityOk: bool)
    requires m.dst < |c.servers| && CountOk(c.servers[m.dst])
    ensures Counts(c, AnswerVote(BumpTerm(c, m.dst, m.term), m, priorityOk), m.dst)
  {
  }

  lemma RebootCounts(c: State, v: nat, lastCommit: nat)
    requires v < |c.servers|
    ensures Counts(c, Reboot(c, v, lastCommit), v)
  {
  }

  lemma OtherCounts(c: State, a: Action)
    requires Enabled(c, a) && !a.StartVote? && !a.DeliverVoteResp? && !a.DeliverAppendReq?
    requires Actor(a) < |c.servers| ==> CountOk(c.servers[Actor(a)])
    ensures Counts(c, Step(c, a), Actor(a))
  {
    hide BuildAppendReq, Stamped, TakeAppendResp, AnswerVote, Reboot;
    match a
    case DeliverAppendResp(r, committed) => AppendRespCounts(c, r, committed);
    case DeliverVoteReq(m, ok) => VoteReqCounts(c, m, ok);
    case CrashRestart(v, last) => RebootCounts(c, v, last);
    case _ =>
  }

  lemma StepCounts(c: State, a: Action)
    requires CountInv(c) && Enabled(c, a)
    ensures CountInv(Step(c, a))
  {
    hide AnswerAppend, TakeVoteResp, CrownIfElected, Stand, BumpTerm, CountOk, Counts;
    match a
    case StartVote(v, conf) => StartVoteCounts(c, v, conf); KeepCount(c, Step(c, a), v);
    case DeliverVoteResp(r, conf) => VoteRespCounts(c, r, conf); KeepCount(c, Step(c, a), r.dst);
    case DeliverAppendReq(m, declined, stop) =>
      AppendReqCounts(c, m, declined, stop);
      KeepCount(c, Step(c, a), m.dst);
    case _ => OtherCounts(c, a); KeepCount(c, Step(c, a), Actor(a));
  }

  lemma {:induction false} RunCounts(states: seq<State>, actions: seq<Action>, i: nat)
    requires IsRun(states, actions) && CountInv(states[0]) && i < |states|
    ensures CountInv(states[i])
  {
    hide CountInv, Step, Enabled;
    if i == 0 {
    } else {
      RunCounts(states, actions, i - 1);
      assert Follows(states, actions, i - 1);
      StepCounts(states[i - 1], actions[i - 1]);
    }
  }

  lemma InitCounts(n: nat)
    ensures CountInv(Init(n))
  {
    forall v | 0 <= v < n ensures CountOk(Init(n).servers[v]) {
      assert Init(n).servers[v] == Fresh(v, n);
    }
  }

  /**
   In every reachable state no server has counted more answers than there are members, and one that
   has counted them all counts none any more.
   */
  lemma AnswersAreCounted(n: nat, c: State, v: nat, r: VoteResp)
    requires Reaches(n, c, c) && v < |c.servers|
    ensures var s := c.servers[v];
            && s.votesGranted <= s.votesResponded <= NumVoting(s)
            && (s.votesResponded == NumVoting(s) ==> !CountsVote(s, r))
  {
    var states: seq<State>, actions: seq<Action>, i: nat :|
      && IsRun(states, actions) && states[0] == Init(n)
      && i < |states| && states[i] == c && states[|states| - 1] == c;
    InitCounts(n);
    RunCounts(states, actions, i);
  }
}
