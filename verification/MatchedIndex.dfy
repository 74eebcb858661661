/**
 When a leader's matched index for a peer is founded on an acknowledgement of the leader's own
 term. Two kinds of steps take that away: an accepted response of an older term, and an election.
 */
module MatchedIndex {
  import opened Raft
  import opened Cluster
  import opened ClusterInv
  import opened ClusterTheorems
  import opened ClusterLead
  import opened NextIndex
  import opened Acks

  /** The peer has acknowledged its matched index in the server's term. */
  ghost predicate Founded(c: State, v: nat, p: nat)
    requires v < |c.servers| && p in c.servers[v].peers
  {
    var s := c.servers[v];
    s.peers[p].matched == 0 || AckedAt(c, s.term, p, s.peers[p].matched)
  }

  /** An accepted response of an older term, for an index not acknowledged in the current one. */
  ghost predicate StaleRaise(c: State, a: Action, v: nat, p: nat)
    requires v < |c.servers|
  {
    && TakesAck(a, v, p) && a.aresp.term < c.servers[v].term && a.aresp.next > 1
    && !AckedAt(c, c.servers[v].term, p, a.aresp.next - 1)
  }

  lemma SameResps(c: State, r: AppendResp, committed: nat)
    requires Enabled(c, DeliverAppendResp(r, committed))
    ensures Step(c, DeliverAppendResp(r, committed)).appResps == c.appResps
  {
  }

  /** While a server leads a term, a founded matched index stays founded in every step but exactly the stale one. */
  lemma FoundedStaysIff(n: nat, c: State, a: Action, v: nat, t: nat, p: nat)
    requires Reaches(n, c, c) && Enabled(c, a)
    requires Leads(c, v, t) && Leads(Step(c, a), v, t) && p in c.servers[v].peers && Founded(c, v, p)
    ensures p in Step(c, a).servers[v].peers
    ensures Founded(Step(c, a), v, p) <==> !StaleRaise(c, a, v, p)
  {
    hide Reaches, Inv, Step, AckedAt, AckStep;
    ReachInv(n, c, c);
    var c' := Step(c, a);
    if TakesAck(a, v, p) {
      AckedNext(c, a.aresp, a.committed);
      SameResps(c, a.aresp, a.committed);
      SameAcks(c, c', t, p, a.aresp.next - 1);
      if a.aresp.term == t { AnswerIsAck(c, a.aresp, a.aresp.next - 1); }
    } else {
      StepNear(c, a, v, t, p);
      StepIsAckStep(c, a);
      RespsKept(c, c');
      if AckedAt(c, t, p, c.servers[v].peers[p].matched) { AckedStays(c, c', t, p, c.servers[v].peers[p].matched); }
    }
  }

  lemma RespsKept(c: State, c': State)
    requires AckStep(c, c')
    ensures c.appResps <= c'.appResps
  {
  }

  lemma SameAcks(c: State, c': State, t: nat, w: nat, k: nat)
    requires c'.appResps == c.appResps
    ensures AckedAt(c', t, w, k) <==> AckedAt(c, t, w, k)
  {
  }

  /** Taking votes neither sends nor loses an append response. */
  lemma VotesKeepResps(c: State, a: Action)
    requires Enabled(c, a) && (a.StartVote? || a.DeliverVoteResp?)
    ensures Step(c, a).appResps == c.appResps
  {
    hide BecomeLeader, CountVote;
  }

  lemma NewTerm(c: State, a: Action, v: nat)
    requires Inv(c) && Enabled(c, a) && v < |c.servers|
    ensures BecomesLeader(c, Step(c, a), v) ==> Step(c, a).servers[v].term !in c.elect
  {
    hide Inv, Step, Enabled;
    StepIsLeadStep(c, a);
  }

  /** A new leader has no acknowledgement of its term, so exactly its positive matched indexes are unfounded. */
  lemma NewLeaderFoundedIff(n: nat, c: State, a: Action, v: nat, p: nat)
    requires Reaches(n, c, c) && Enabled(c, a) && v < |c.servers| && p in c.servers[v].peers
    ensures var c' := Step(c, a);
            BecomesLeader(c, c', v) ==>
              p in c'.servers[v].peers && (Founded(c', v, p) <==> c.servers[v].peers[p].matched == 0)
  {
    hide Reaches, Inv, Step, Enabled;
    ReachInv(n, c, c);
    NewLeaderInRange(n, c, a, v, p);
    NewLeaderVotes(c, a, v);
    NewTerm(c, a, v);
    KnownTerms(c);
    if a.StartVote? || a.DeliverVoteResp? { VotesKeepResps(c, a); }
  }

  /** With every matched index founded, a majority of them means acceptance by a majority. */
  lemma FoundedCountersHold(n: nat, c: State, v: nat, k: nat)
    requires Reaches(n, c, c) && OwnEntry(c, v, k) && |Backers(c.servers[v], k)| > Quorum(|c.servers|)
    requires forall p :: p in c.servers[v].peers ==> Founded(c, v, p)
    ensures Committed(c, c.servers[v].term, k, Backers(c.servers[v], k))
  {
    hide Reaches, Committed, Backers;
    var s := c.servers[v];
    forall p | p in s.peers && s.peers[p].matched >= k ensures AckedAt(c, s.term, p, k) {
      assert Founded(c, v, p);
      var r :| r in c.appResps && r.accepted && r.src == p && r.term == s.term && r.next > s.peers[p].matched;
      AnswerIsAck(c, r, k);
    }
    CountersHoldIff(n, c, v, k);
  }
}
