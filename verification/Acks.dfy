/**
 What a leader's matched indexes are worth. An index is accepted in a term exactly if a response
 of that term says so; a matched index may come from an older term.
 */
module Acks {
  import opened Basics
  import opened LogEntries
  import opened Quorums
  import opened Raft
  import opened Cluster
  import opened ClusterInv
  import opened ClusterSteps
  import opened ClusterTheorems
  import opened ClusterLead

  // ----- every acceptance is answered

  /** Server w has acknowledged index k in term t. */
  ghost predicate AckedAt(c: State, t: nat, w: nat, k: nat) {
    exists r :: r in c.appResps && r.accepted && r.src == w && r.term == t && r.next > k
  }

  /** Who is not the term's leader has answered for what it accepted in the term. */
  ghost predicate AnsweredFor(c: State, t: nat, w: nat)
    requires (t, w) in c.acc
  {
    (t in c.elect && c.elect[t].leader == w) || AckedAt(c, t, w, c.acc[(t, w)])
  }

  ghost predicate AckInv(c: State) {
    forall t, w :: (t, w) in c.acc ==> AnsweredFor(c, t, w)
  }

  /** Responses stay, and what is newly accepted is the leader's own or answered. */
  ghost predicate AckStep(c: State, c': State) {
    && c.appResps <= c'.appResps
    && forall t, w :: (t, w) in c'.acc ==>
      ((t, w) in c.acc && c.acc[(t, w)] == c'.acc[(t, w)]) || AnsweredFor(c', t, w)
  }

  lemma KeepAckInv(c: State, c': State)
    requires AckInv(c) && AckStep(c, c') && HistoryGrows(c, c')
    ensures AckInv(c')
  {
    forall t, w | (t, w) in c'.acc ensures AnsweredFor(c', t, w) {
      if (t, w) in c.acc && c.acc[(t, w)] == c'.acc[(t, w)] {
        assert AnsweredFor(c, t, w);
        if AckedAt(c, t, w, c.acc[(t, w)]) { AckedStays(c, c', t, w, c.acc[(t, w)]); }
      }
    }
  }

  lemma AckedStays(c: State, c': State, t: nat, w: nat, k: nat)
    requires AckedAt(c, t, w, k) && c.appResps <= c'.appResps
    ensures AckedAt(c', t, w, k)
  {
    var r :| r in c.appResps && r.accepted && r.src == w && r.term == t && r.next > k;
    assert r in c'.appResps;
  }

  lemma CrownAck(c: State, v: nat, conf: LogEntry)
    requires v < |c.servers|
    ensures AckStep(c, Crown(c, v, conf))
  {
    hide AckedAt, BecomeLeader;
  }

  /** Steps that record neither an acceptance nor a response. */
  lemma SilentAck(c: State, c': State)
    requires c'.acc == c.acc && c'.appResps == c.appResps
    ensures AckStep(c, c')
  {
  }

  lemma ThenAck(c: State, c1: State, c': State)
    requires c1.acc == c.acc && c1.appResps == c.appResps && AckStep(c1, c')
    ensures AckStep(c, c')
  {
  }

  lemma StartVoteAck(c: State, v: nat, conf: LogEntry)
    requires v < |c.servers|
    ensures AckStep(c, CrownIfElected(Stand(c, v), v, conf))
  {
    hide AckStep, Crown;
    var c1 := Stand(c, v);
    if Elected(c1.servers[v]) {
      CrownAck(c1, v, conf);
      ThenAck(c, c1, Crown(c1, v, conf));
    } else {
      SilentAck(c, c1);
    }
  }

  lemma VoteRespAck(c: State, r: VoteResp, conf: LogEntry)
    requires r.dst < |c.servers|
    ensures AckStep(c, TakeVoteResp(c, r, conf))
  {
    hide AckStep, Crown, CountVote, UpdateTerm;
    var c1 := TakeVote(c, r);
    var c' := TakeVoteResp(c, r, conf);
    if r.term <= c.servers[r.dst].term && CountsVote(c.servers[r.dst], r) && Elected(c1.servers[r.dst]) {
      CrownAck(c1, r.dst, conf);
      ThenAck(c, c1, c');
    } else {
      SilentAck(c, c');
    }
  }

  lemma StoreAck(c: State, v: nat, e: LogEntry)
    requires Inv(c) && v < |c.servers| && c.servers[v].role == Leader
    ensures AckStep(c, LeaderStore(c, v, e))
  {
    hide AckedAt;
    assert LogOk(c, v);
  }

  lemma AppendReqAck(c: State, m: AppendReq, declined: bool, stopAfter: Option<nat>)
    requires Inv(c) && m.dst < |c.servers|
    ensures AckStep(c, AnswerAppend(BumpTerm(c, m.dst, m.term), m, declined, stopAfter))
  {
    hide Inv, HandleAppend, AckedAt;
    var c1 := BumpTerm(c, m.dst, m.term);
    var c' := AnswerAppend(c1, m, declined, stopAfter);
    KnowsId(c, m.dst);
    AcceptanceAnswer(c1.servers[m.dst], m, declined, stopAfter);
    var r := HandleAppend(c1.servers[m.dst], m, declined, stopAfter).1;
    if r.Some? && r.value.accepted {
      AnswerIsAck(c', r.value, m.prevIdx + |m.entries|);
    }
  }

  lemma KnowsId(c: State, w: nat)
    requires Inv(c) && w < |c.servers|
    ensures c.servers[w].id == w
  {
    assert BallotOk(c, w);
  }

  lemma AnswerIsAck(c: State, r: AppendResp, k: nat)
    requires r in c.appResps && r.accepted && r.next > k
    ensures AckedAt(c, r.term, r.src, k)
  {
  }

  lemma AcceptanceAnswer(s: Server, m: AppendReq, declined: bool, stopAfter: Option<nat>)
    requires m.term <= s.term
    ensures var r := HandleAppend(s, m, declined, stopAfter).1;
            r.Some? && r.value.accepted ==>
              r.value.src == s.id && r.value.term == m.term && r.value.next == m.prevIdx + |m.entries| + 1
  {
    hide WriteEntries, Stops;
  }

  lemma StepIsAckStep(c: State, a: Action)
    requires Inv(c) && Enabled(c, a)
    ensures AckStep(c, Step(c, a))
  {
    hide Inv, AckStep, LeaderStore, AnswerAppend, TakeVoteResp, CrownIfElected, Stand;
    match a
    case StartVote(v, conf) => StartVoteAck(c, v, conf);
    case DeliverVoteResp(r, conf) => VoteRespAck(c, r, conf);
    case ClientStore(v, e, ts) => StoreAck(c, v, Stamped(e, c.servers[v].term, ts));
    case DeliverAppendReq(m, declined, stop) => AppendReqAck(c, m, declined, stop);
    case _ => SilentAck(c, Step(c, a));
  }

  lemma {:induction false} RunAckInv(states: seq<State>, actions: seq<Action>, i: nat)
    requires IsRun(states, actions) && Inv(states[0]) && AckInv(states[0]) && i < |states|
    ensures AckInv(states[i])
  {
    hide Inv, AckInv, AckStep, Step, Enabled, HistoryGrows;
    if i == 0 {
    } else {
      var c := states[i - 1];
      RunAckInv(states, actions, i - 1);
      RunInv(states, actions, i - 1);
      assert Follows(states, actions, i - 1);
      StepIsAckStep(c, actions[i - 1]);
      StepGrows(c, actions[i - 1]);
      KeepAckInv(c, states[i]);
    }
  }

  lemma ReachAckInv(n: nat, c: State)
    requires Reaches(n, c, c)
    ensures AckInv(c)
  {
    hide Inv;
    var states: seq<State>, actions: seq<Action>, i: nat :|
      && IsRun(states, actions) && states[0] == Init(n)
      && i < |states| && states[i] == c && states[|states| - 1] == c;
    InitInv(n);
    RunAckInv(states, actions, i);
  }

  // ----- what the leader's counters mean

  /** The leader and the peers whose matched index has reached k. */
  function Backers(s: Server, k: nat): set<nat> {
    {s.id} + set p | p in s.peers && s.peers[p].matched >= k
  }

  /** The leader and the peers that have acknowledged k in its term. */
  ghost function Acked(c: State, s: Server, k: nat): set<nat> {
    {s.id} + set p | p in s.peers && AckedAt(c, s.term, p, k)
  }

  /** Index k is an entry of the term that server v leads. */
  predicate OwnEntry(c: State, v: nat, k: nat) {
    && v < |c.servers| && c.servers[v].role == Leader
    && 1 <= k <= |c.servers[v].log| && c.servers[v].log[k - 1].term == c.servers[v].term
  }

  /** A majority has acknowledged the entry in its term. */
  ghost predicate AckedQuorum(c: State, v: nat, k: nat) {
    OwnEntry(c, v, k) && |Acked(c, c.servers[v], k)| > Quorum(|c.servers|)
  }

  /** Server w has accepted index k in term t. */
  predicate AcceptedAt(c: State, t: nat, w: nat, k: nat) {
    (t, w) in c.acc && k <= c.acc[(t, w)]
  }

  lemma AckedAccepted(c: State, v: nat, k: nat, w: nat)
    requires Inv(c) && OwnEntry(c, v, k) && w in Acked(c, c.servers[v], k)
    ensures w < |c.servers| && AcceptedAt(c, c.servers[v].term, w, k)
  {
    var (s, t) := (c.servers[v], c.servers[v].term);
    assert LogOk(c, v) && BallotOk(c, v);
    if w != v {
      var r :| r in c.appResps && r.accepted && r.src == w && r.term == t && r.next > k;
      assert AppRespOk(c, r);
    }
  }

  lemma AcceptedAcked(c: State, v: nat, k: nat, w: nat)
    requires Inv(c) && AckInv(c) && OwnEntry(c, v, k) && w < |c.servers| && AcceptedAt(c, c.servers[v].term, w, k)
    ensures w in Acked(c, c.servers[v], k)
  {
    var (s, t) := (c.servers[v], c.servers[v].term);
    assert LogOk(c, v) && BallotOk(c, v) && AnsweredFor(c, t, w);
    if w != v {
      var r :| r in c.appResps && r.accepted && r.src == w && r.term == t && r.next > c.acc[(t, w)];
      assert AckedAt(c, t, w, k);
    }
  }

  /** An own-term entry is committed by a set of servers if it is a majority that has accepted it. */
  lemma OwnCommitted(c: State, v: nat, k: nat, q: set<nat>)
    requires Inv(c) && OwnEntry(c, v, k)
    ensures Committed(c, c.servers[v].term, k, q) <==>
            Majority(q, Ids(|c.servers|)) && forall w :: w in q ==> AcceptedAt(c, c.servers[v].term, w, k)
  {
    hide Majority, Ids;
    assert LogOk(c, v);
  }

  lemma AckedQuorumCommitted(c: State, v: nat, k: nat)
    requires Inv(c) && AckedQuorum(c, v, k)
    ensures Committed(c, c.servers[v].term, k, Acked(c, c.servers[v], k))
  {
    hide Inv, Committed, Acked, Ids, AcceptedAt;
    var q := Acked(c, c.servers[v], k);
    forall w | w in q ensures w in Ids(|c.servers|) && AcceptedAt(c, c.servers[v].term, w, k) {
      AckedAccepted(c, v, k, w);
    }
    OwnCommitted(c, v, k, q);
  }

  lemma CommittersAcked(c: State, v: nat, k: nat, q: set<nat>)
    requires Inv(c) && AckInv(c) && OwnEntry(c, v, k) && Committed(c, c.servers[v].term, k, q)
    ensures q <= Acked(c, c.servers[v], k) && AckedQuorum(c, v, k)
  {
    hide Inv, AckInv, Committed, Acked, Ids, AcceptedAt;
    OwnCommitted(c, v, k, q);
    forall w | w in q ensures w in Acked(c, c.servers[v], k) { AcceptedAcked(c, v, k, w); }
    SubsetSize(q, Acked(c, c.servers[v], k));
  }

  /** A leader's own entry is accepted by a majority exactly if a majority has acknowledged it in its term. */
  lemma CommittedIffAcked(n: nat, c: State, v: nat, k: nat)
    requires Reaches(n, c, c) && OwnEntry(c, v, k)
    ensures (exists q :: Committed(c, c.servers[v].term, k, q)) <==> AckedQuorum(c, v, k)
  {
    hide Reaches, Inv, AckInv, Committed, AckedQuorum;
    ReachInv(n, c, c);
    ReachAckInv(n, c);
    if AckedQuorum(c, v, k) { AckedQuorumCommitted(c, v, k); }
    forall q | Committed(c, c.servers[v].term, k, q) ensures AckedQuorum(c, v, k) { CommittersAcked(c, v, k, q); }
  }

  /**
   A majority of matched indexes means acceptance by those counted exactly if each of them has
   acknowledged the entry in the leader's term; the counters do not tell.
   */
  lemma CountersHoldIff(n: nat, c: State, v: nat, k: nat)
    requires Reaches(n, c, c) && OwnEntry(c, v, k) && |Backers(c.servers[v], k)| > Quorum(|c.servers|)
    ensures var s := c.servers[v];
            Committed(c, s.term, k, Backers(s, k)) <==>
            forall p :: p in s.peers && s.peers[p].matched >= k ==> AckedAt(c, s.term, p, k)
  {
    hide Reaches, Inv, AckInv, Committed, Ids, AckedAt, AcceptedAt;
    ReachInv(n, c, c);
    ReachAckInv(n, c);
    var (s, q) := (c.servers[v], Backers(c.servers[v], k));
    OwnCommitted(c, v, k, q);
    BackersKnown(c, v, k);
    if Committed(c, s.term, k, q) {
      CommittersAcked(c, v, k, q);
      forall p | p in s.peers && s.peers[p].matched >= k ensures AckedAt(c, s.term, p, k) {
        assert p in q && p in Acked(c, s, k);
      }
    } else if forall p :: p in s.peers && s.peers[p].matched >= k ==> AckedAt(c, s.term, p, k) {
      forall w | w in q ensures AcceptedAt(c, s.term, w, k) { AckedAccepted(c, v, k, w); }
    }
  }

  lemma BackersKnown(c: State, v: nat, k: nat)
    requires Inv(c) && v < |c.servers|
    ensures Backers(c.servers[v], k) <= Ids(|c.servers|) && v !in c.servers[v].peers && c.servers[v].id == v
  {
    assert BallotOk(c, v);
  }
}
