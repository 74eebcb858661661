/**
 When a leader's next index for a peer stays within what the leader may send. A response of
 an older term is taken like any other, and its index may lie beyond the leader's log.
 */
module NextIndex {
  import opened Basics
  import opened LogEntries
  import opened Raft
  import opened Cluster
  import opened ClusterInv
  import opened ClusterSteps
  import opened ClusterTheorems
  import opened ClusterLead
  import opened CatchUp

  /** An acknowledgement of the leader's own term never goes beyond its pre-commit index. */
  lemma FreshAckInRange(n: nat, c: State, v: nat, r: AppendResp)
    requires Reaches(n, c, c) && v < |c.servers| && c.servers[v].role == Leader
    requires r in c.appResps && r.accepted && r.term == c.servers[v].term
    ensures r.next <= c.servers[v].precommit + 1 <= |c.servers[v].log| + 1
  {
    hide Reaches;
    ReachInv(n, c, c);
    ReachLeadInv(n, c);
    assert LogOk(c, v) && LeadOk(c, v);
  }

  /** An accepted response of an older term that names an index the leader does not have. */
  predicate StaleOverrun(c: State, a: Action, v: nat, p: nat)
    requires v < |c.servers|
  {
    && a.DeliverAppendResp? && a.aresp.dst == v && a.aresp.src == p && a.aresp.accepted
    && a.aresp.term < c.servers[v].term && a.aresp.next > c.servers[v].precommit + 1
  }

  predicate Leads(c: State, v: nat, term: nat) {
    v < |c.servers| && c.servers[v].role == Leader && c.servers[v].term == term
  }

  /** Neither the next index goes up nor the pre-commit index down, and the matched index is kept or forgotten. */
  predicate Near(s: Server, s': Server, p: nat) {
    && p in s.peers && p in s'.peers && s.precommit <= s'.precommit
    && (s'.peers[p].next == s.peers[p].next || s'.peers[p].next <= NextFor(s, p))
    && (s'.peers[p].matched == s.peers[p].matched || s'.peers[p].matched == 0)
  }

  lemma NearInRange(s: Server, s': Server, p: nat)
    requires Near(s, s', p) && NextInRange(s, p)
    ensures NextInRange(s', p)
  {
  }

  lemma LeaderDone(c: State, v: nat)
    requires Inv(c) && v < |c.servers| && c.servers[v].role == Leader
    ensures c.servers[v].electionCompleted
  {
    assert LogOk(c, v) && ReignOk(c, c.servers[v].term);
  }

  predicate TakesAck(a: Action, v: nat, p: nat) {
    a.DeliverAppendResp? && a.aresp.dst == v && a.aresp.src == p && a.aresp.accepted
  }

  lemma StartVoteNear(c: State, u: nat, conf: LogEntry, v: nat, t: nat, p: nat)
    requires u < |c.servers| && Leads(c, v, t) && p in c.servers[v].peers
    requires Leads(CrownIfElected(Stand(c, u), u, conf), v, t)
    ensures Near(c.servers[v], CrownIfElected(Stand(c, u), u, conf).servers[v], p)
  {
    StandTerm(c, u, conf);
  }

  lemma StandTerm(c: State, u: nat, conf: LogEntry)
    requires u < |c.servers|
    ensures var c' := CrownIfElected(Stand(c, u), u, conf);
            |c'.servers| == |c.servers| && c'.servers[u].term == c.servers[u].term + 1
  {
  }

  lemma VoteReqNear(c: State, m: VoteReq, priorityOk: bool, v: nat, t: nat, p: nat)
    requires m.dst < |c.servers| && Leads(c, v, t) && p in c.servers[v].peers
    requires Leads(AnswerVote(BumpTerm(c, m.dst, m.term), m, priorityOk), v, t)
    ensures Near(c.servers[v], AnswerVote(BumpTerm(c, m.dst, m.term), m, priorityOk).servers[v], p)
  {
  }

  lemma VoteRespNear(c: State, r: VoteResp, conf: LogEntry, v: nat, t: nat, p: nat)
    requires r.dst < |c.servers| && Leads(c, v, t) && p in c.servers[v].peers && c.servers[v].electionCompleted
    requires Leads(TakeVoteResp(c, r, conf), v, t)
    ensures Near(c.servers[v], TakeVoteResp(c, r, conf).servers[v], p)
  {
    hide BecomeLeader, CountVote;
  }

  lemma VoteStepNear(c: State, a: Action, v: nat, t: nat, p: nat)
    requires Inv(c) && Enabled(c, a) && (a.StartVote? || a.DeliverVoteReq? || a.DeliverVoteResp?)
    requires Leads(c, v, t) && Leads(Step(c, a), v, t) && p in c.servers[v].peers
    ensures Near(c.servers[v], Step(c, a).servers[v], p)
  {
    hide Inv, CrownIfElected, Stand, AnswerVote, TakeVoteResp, BumpTerm, Near;
    LeaderDone(c, v);
    match a
    case StartVote(u, conf) => StartVoteNear(c, u, conf, v, t, p);
    case DeliverVoteReq(m, ok) => VoteReqNear(c, m, ok, v, t, p);
    case DeliverVoteResp(r, conf) => VoteRespNear(c, r, conf, v, t, p);
  }

  lemma AppendStepNear(c: State, a: Action, v: nat, t: nat, p: nat)
    requires Enabled(c, a) && a.DeliverAppendReq?
    requires Leads(c, v, t) && Leads(Step(c, a), v, t) && p in c.servers[v].peers
    ensures Near(c.servers[v], Step(c, a).servers[v], p)
  {
    hide HandleAppend;
    var c1 := BumpTerm(c, a.areq.dst, a.areq.term);
    AppendServer(c1.servers[a.areq.dst], a.areq, a.declined, a.stopAfter);
  }

  lemma OtherStepNear(c: State, a: Action, v: nat, t: nat, p: nat)
    requires Enabled(c, a) && !a.StartVote? && !a.DeliverVoteReq? && !a.DeliverVoteResp? && !a.DeliverAppendReq?
    requires Leads(c, v, t) && Leads(Step(c, a), v, t) && p in c.servers[v].peers
    requires !TakesAck(a, v, p)
    ensures Near(c.servers[v], Step(c, a).servers[v], p)
  {
    hide BuildAppendReq, Stamped, CommitIfAlone, HandleAppendResp, Near;
    var s := c.servers[v];
    LeaderNear(s, p);
    match a
    case Reconnect(u, q) => if u == v { PeerNear(s, q, p); }
    case SendAppend(u, q, k) => if u == v { PeerNear(s, q, p); }
    case DeliverAppendResp(r, committed) => if r.dst == v { RespNear(s, r, committed, p); }
    case _ =>
  }

  /** Storing an entry and announcing what is stored. */
  lemma LeaderNear(s: Server, p: nat)
    requires p in s.peers
    ensures Near(s, s, p) && forall e :: Near(s, StoreEntry(s, e), p)
    ensures forall last :: Near(s, CommitIfAlone(RaisePrecommit(s, last)), p)
  {
  }

  lemma PeerNear(s: Server, q: nat, p: nat)
    requires p in s.peers && q in s.peers
    ensures Near(s, ResetPeer(s, q), p) && Near(s, SetNext(s, q, NextFor(s, q)), p)
  {
  }

  lemma RespNear(s: Server, r: AppendResp, committed: nat, p: nat)
    requires p in s.peers && (r.accepted ==> 0 < r.next && r.src != p)
    ensures Near(s, HandleAppendResp(s, r, committed), p)
  {
  }

  lemma StepNear(c: State, a: Action, v: nat, t: nat, p: nat)
    requires Inv(c) && Enabled(c, a)
    requires Leads(c, v, t) && Leads(Step(c, a), v, t) && p in c.servers[v].peers
    requires !TakesAck(a, v, p)
    ensures Near(c.servers[v], Step(c, a).servers[v], p)
  {
    hide Step, Inv, Enabled;
    if a.StartVote? || a.DeliverVoteReq? || a.DeliverVoteResp? { VoteStepNear(c, a, v, t, p); }
    else if a.DeliverAppendReq? { AppendStepNear(c, a, v, t, p); }
    else { OtherStepNear(c, a, v, t, p); }
  }

  /**
   While a server leads a term, its next index for a peer stays in range in every step but exactly
   the one that takes an accepted response of an older term naming an index beyond its own.
   */
  lemma NextStaysInRangeIff(n: nat, c: State, a: Action, v: nat, t: nat, p: nat)
    requires Reaches(n, c, c) && Enabled(c, a)
    requires Leads(c, v, t) && Leads(Step(c, a), v, t)
    requires NextInRange(c.servers[v], p)
    ensures NextInRange(Step(c, a).servers[v], p) <==> !StaleOverrun(c, a, v, p)
  {
    hide Reaches, Inv, Step;
    ReachInv(n, c, c);
    if TakesAck(a, v, p) {
      AckedNext(c, a.aresp, a.committed);
      if a.aresp.term == c.servers[v].term { FreshAckInRange(n, c, v, a.aresp); }
    } else {
      StepNear(c, a, v, t, p);
      NearInRange(c.servers[v], Step(c, a).servers[v], p);
    }
  }

  /** A response that leaves its receiver leader is not of a higher term and sets the next index. */
  lemma AckedNext(c: State, r: AppendResp, committed: nat)
    requires Enabled(c, DeliverAppendResp(r, committed)) && r.accepted
    requires Leads(c, r.dst, c.servers[r.dst].term) && r.src in c.servers[r.dst].peers
    requires Leads(Step(c, DeliverAppendResp(r, committed)), r.dst, c.servers[r.dst].term)
    ensures r.term <= c.servers[r.dst].term
    ensures var s' := Step(c, DeliverAppendResp(r, committed)).servers[r.dst];
            r.src in s'.peers && s'.peers[r.src] == Peer(r.next, r.next - 1) && s'.precommit == c.servers[r.dst].precommit
  {
  }

  /** A leader that starts out: the next index is in range and the matched index is the one it had. */
  predicate StartsWith(s: Server, l: Server, p: nat) {
    NextInRange(l, p) && p in s.peers && l.peers[p].matched == s.peers[p].matched
  }

  lemma CrownInRange(c: State, v: nat, conf: LogEntry, p: nat)
    requires v < |c.servers| && p in c.servers[v].peers
    ensures StartsWith(c.servers[v], Crown(c, v, conf).servers[v], p)
  {
  }

  /** Reigns begin only when a vote is started or a vote response is taken. */
  lemma NoNewReign(c: State, a: Action)
    requires Enabled(c, a) && !a.StartVote? && !a.DeliverVoteResp?
    ensures Step(c, a).elect.Keys == c.elect.Keys
  {
    hide HandleAppend, DecideVote;
  }

  predicate BecomesLeader(c: State, c': State, v: nat) {
    v < |c'.servers| && Leads(c', v, c'.servers[v].term) && !Leads(c, v, c'.servers[v].term)
  }

  lemma NewLeaderVotes(c: State, a: Action, v: nat)
    requires Inv(c) && Enabled(c, a) && v < |c.servers|
    ensures BecomesLeader(c, Step(c, a), v) ==> a.StartVote? || a.DeliverVoteResp?
  {
    hide Inv, Step, Enabled;
    StepIsLeadStep(c, a);
    if !a.StartVote? && !a.DeliverVoteResp? { NoNewReign(c, a); }
  }

  lemma StartVoteInRange(c: State, u: nat, conf: LogEntry, v: nat, p: nat)
    requires u < |c.servers| && v < |c.servers| && p in c.servers[v].peers
    ensures var c' := CrownIfElected(Stand(c, u), u, conf);
            BecomesLeader(c, c', v) ==> StartsWith(c.servers[v], c'.servers[v], p)
  {
    hide Crown, NextInRange;
    if Elected(Stand(c, u).servers[u]) {
      CrownOthers(Stand(c, u), u, conf);
      if u == v { CrownInRange(Stand(c, u), u, conf, p); }
    }
  }

  lemma CrownOthers(c: State, u: nat, conf: LogEntry)
    requires u < |c.servers|
    ensures |Crown(c, u, conf).servers| == |c.servers|
    ensures forall w :: 0 <= w < |c.servers| && w != u ==> Crown(c, u, conf).servers[w] == c.servers[w]
  {
  }

  lemma VoteRespInRange(c: State, r: VoteResp, conf: LogEntry, v: nat, p: nat)
    requires r.dst < |c.servers| && v < |c.servers| && p in c.servers[v].peers
    ensures var c' := TakeVoteResp(c, r, conf);
            BecomesLeader(c, c', v) ==> StartsWith(c.servers[v], c'.servers[v], p)
  {
    hide Crown, NextInRange;
    var c1 := TakeVote(c, r);
    if Elected(c1.servers[r.dst]) {
      CrownOthers(c1, r.dst, conf);
      if r.dst == v { CrownInRange(c1, r.dst, conf, p); }
    }
  }

  /** A new leader starts with every next index in range and keeps every matched index. */
  lemma NewLeaderInRange(n: nat, c: State, a: Action, v: nat, p: nat)
    requires Reaches(n, c, c) && Enabled(c, a) && v < |c.servers| && p in c.servers[v].peers
    ensures BecomesLeader(c, Step(c, a), v) ==> StartsWith(c.servers[v], Step(c, a).servers[v], p)
  {
    hide Reaches, Inv, CrownIfElected, Stand, TakeVoteResp, StartsWith, BecomesLeader;
    ReachInv(n, c, c);
    NewLeaderVotes(c, a, v);
    match a
    case StartVote(u, conf) => StartVoteInRange(c, u, conf, v, p);
    case DeliverVoteResp(r, conf) => VoteRespInRange(c, r, conf, v, p);
    case _ =>
  }
}
