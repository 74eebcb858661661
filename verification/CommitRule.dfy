/** The commit rule seen from the cluster: which index a leader's own and matched indexes select. */
module CommitRule {
  import opened Raft
  import opened Quorums
  import opened CommitIndex
  import opened RaftServers
  import opened Cluster
  import opened ClusterInv
  import ClusterSteps
  import opened ClusterTheorems
  import opened Acks
  import opened MatchedIndex
  import opened CommitSafety

  function PeersAt(peers: map<nat, Peer>, k: nat): set<nat> {
    set p | p in peers && peers[p].matched >= k
  }

  /** The members that have reached index k, as far as the leader knows. */
  function Supporters(s: Server, k: nat): set<nat> {
    (if s.precommit >= k then {s.id} else {}) + PeersAt(s.peers, k)
  }

  /** The largest index that a majority has reached, as far as the leader knows. */
  ghost predicate RuleValue(s: Server, idx: nat) {
    forall k: nat :: |Supporters(s, k)| > Quorum(NumVoting(s)) <==> k <= idx
  }

  /**
   After a reconnection the peer supports nothing until it answers again, and the next request to it
   starts after the pre-commit index; what is known about the others stays.
   */
  lemma ReconnectForgets(s: Server, p: nat, k: nat)
    requires p in s.peers && s.id !in s.peers && k > 0
    ensures var s' := Raft.ResetPeer(s, p);
            && NextFor(s', p) == s.precommit + 1
            && s'.peers - {p} == s.peers - {p}
            && Supporters(s', k) == if s.peers[p].next == 0 then Supporters(s, k) else Supporters(s, k) - {p}
  {
  }

  function Matched(peers: map<nat, Peer>, order: seq<nat>): seq<nat>
    requires forall i :: 0 <= i < |order| ==> order[i] in peers
  {
    if order == [] then [] else [peers[order[0]].matched] + Matched(peers, order[1..])
  }

  predicate Distinct(order: seq<nat>) {
    forall i, j :: 0 <= i < j < |order| ==> order[i] != order[j]
  }

  lemma {:induction false} RegularIsMatched(peers: map<nat, Peer>, order: seq<nat>, silent: set<nat>, receiving: set<nat>)
    requires forall i :: 0 <= i < |order| ==> order[i] in peers
    ensures Regular(Views(peers, order, silent, receiving)) == Matched(peers, order)
    ensures |Matched(peers, order)| == |order|
    decreases |order|
  {
    if order == [] {
    } else {
      RegularIsMatched(peers, order[1..], silent, receiving);
      assert Views(peers, order, silent, receiving)[1..] == Views(peers, order[1..], silent, receiving);
    }
  }

  function ReachedBy(peers: map<nat, Peer>, order: seq<nat>, k: nat): set<nat>
    requires forall i :: 0 <= i < |order| ==> order[i] in peers
  {
    set p | p in order && peers[p].matched >= k
  }

  /** Counting along an enumeration is counting the set. */
  lemma {:induction false} CountIsSize(peers: map<nat, Peer>, order: seq<nat>, k: nat)
    requires (forall i :: 0 <= i < |order| ==> order[i] in peers) && Distinct(order)
    ensures CountAtLeast(Matched(peers, order), k) == |ReachedBy(peers, order, k)|
    decreases |order|
  {
    if order == [] {
      assert ReachedBy(peers, order, k) == {};
    } else {
      var rest := ReachedBy(peers, order[1..], k);
      CountIsSize(peers, order[1..], k);
      assert forall p :: p in order <==> p == order[0] || p in order[1..];
      assert order[0] !in order[1..];
      assert ReachedBy(peers, order, k) == if peers[order[0]].matched >= k then rest + {order[0]} else rest;
    }
  }

  lemma {:induction false} CountAll(s: seq<nat>)
    ensures CountAtLeast(s, 0) == |s|
  {
    if s == [] {
    } else {
      CountAll(s[1..]);
    }
  }

  lemma OrderSize(peers: map<nat, Peer>, order: seq<nat>)
    requires Enumerates(order, peers.Keys)
    ensures |order| == |peers|
  {
    CountIsSize(peers, order, 0);
    RegularIsMatched(peers, order, {}, {});
    CountAll(Matched(peers, order));
    assert ReachedBy(peers, order, 0) == peers.Keys;
  }

  lemma CountCons(x: nat, s: seq<nat>, k: nat)
    ensures CountAtLeast([x] + s, k) == (if x >= k then 1 else 0) + CountAtLeast(s, k)
  {
    assert ([x] + s)[1..] == s;
  }

  lemma ReachedAll(peers: map<nat, Peer>, order: seq<nat>, k: nat)
    requires Enumerates(order, peers.Keys)
    ensures ReachedBy(peers, order, k) == PeersAt(peers, k)
  {
  }

  lemma SupportersSize(s: Server, k: nat)
    requires s.id !in s.peers
    ensures |Supporters(s, k)| == (if s.precommit >= k then 1 else 0) + |PeersAt(s.peers, k)|
  {
    var some := PeersAt(s.peers, k);
    assert s.id !in some;
    if s.precommit >= k {
      assert Supporters(s, k) == some + {s.id};
    } else {
      assert Supporters(s, k) == some;
    }
  }

  lemma SupportersCounted(s: Server, order: seq<nat>, k: nat)
    requires Enumerates(order, s.peers.Keys) && s.id !in s.peers
    ensures CountAtLeast([s.precommit] + Matched(s.peers, order), k) == |Supporters(s, k)|
  {
    hide CountAtLeast, Matched, Supporters, PeersAt, ReachedBy;
    CountIsSize(s.peers, order, k);
    CountCons(s.precommit, Matched(s.peers, order), k);
    ReachedAll(s.peers, order, k);
    SupportersSize(s, k);
  }

  /**
   With the default settings the index that the response handler commits to is the largest that a
   majority has reached, whatever the order in which the peers are visited.
   */
  lemma CommitPointIsRule(s: Server, order: seq<nat>, silent: set<nat>, receiving: set<nat>, idx: nat)
    requires Enumerates(order, s.peers.Keys) && s.id !in s.peers
    ensures var views := Views(s.peers, order, silent, receiving);
            IsCommitPoint([s.precommit] + Regular(views), QuorumIndex(views, Params(0, false, false)), idx) <==>
            RuleValue(s, idx)
  {
    hide CountAtLeast, Supporters, Regular, Views, Matched;
    RegularIsMatched(s.peers, order, silent, receiving);
    forall k: nat ensures CountAtLeast([s.precommit] + Matched(s.peers, order), k) == |Supporters(s, k)| {
      SupportersCounted(s, order, k);
    }
    OrderSize(s.peers, order);
  }

  /** The index that the rule selects is backed by a majority of the leader's counters. */
  lemma RuleIsBacked(s: Server, idx: nat)
    requires RuleValue(s, idx)
    ensures |Backers(s, idx)| > Quorum(NumVoting(s))
  {
    assert |Supporters(s, idx)| > Quorum(NumVoting(s));
    SubsetSize(Supporters(s, idx), Backers(s, idx));
  }

  lemma BackersAcked(c: State, v: nat, k: nat)
    requires v < |c.servers| && k > 0
    requires forall p :: p in c.servers[v].peers ==> Founded(c, v, p)
    ensures Backers(c.servers[v], k) <= Acked(c, c.servers[v], k)
  {
    var s := c.servers[v];
    forall p | p in s.peers && s.peers[p].matched >= k ensures AckedAt(c, s.term, p, k) {
      assert Founded(c, v, p);
      var r :| r in c.appResps && r.accepted && r.src == p && r.term == s.term && r.next > s.peers[p].matched;
      AnswerIsAck(c, r, k);
    }
  }

  lemma MembersKnown(c: State, v: nat)
    requires Inv(c) && v < |c.servers|
    ensures NumVoting(c.servers[v]) == |c.servers|
  {
    assert BallotOk(c, v);
    assert |c.servers[v].peers.Keys| == |Ids(|c.servers|) - {v}| == |c.servers| - 1;
  }

  /** The rule's value is a majority's acknowledgement if it is an own entry and the matched indexes are founded. */
  lemma RuleIsAcked(c: State, v: nat, idx: nat)
    requires Inv(c) && OwnEntry(c, v, idx) && RuleValue(c.servers[v], idx)
    requires forall p :: p in c.servers[v].peers ==> Founded(c, v, p)
    ensures AckedQuorum(c, v, idx)
  {
    hide Inv, Founded, Backers, Acked, RuleValue;
    RuleIsBacked(c.servers[v], idx);
    BackersAcked(c, v, idx);
    MembersKnown(c, v);
    SubsetSize(Backers(c.servers[v], idx), Acked(c, c.servers[v], idx));
  }

  /**
   A leader that commits what the rule selects earns the raise, if every matched index is founded
   on its own term and what is selected is an entry of that term.
   */
  lemma RuleRaiseIsEarned(n: nat, c: State, r: AppendResp, committed: nat)
    requires Reaches(n, c, c) && Enabled(c, DeliverAppendResp(r, committed))
    requires var c' := Step(c, DeliverAppendResp(r, committed));
             && r.dst < |c'.servers| && RuleValue(c'.servers[r.dst], committed)
             && (committed > c.servers[r.dst].quickCommit ==> OwnEntry(c', r.dst, committed))
             && forall p :: p in c'.servers[r.dst].peers ==> Founded(c', r.dst, p)
    ensures Earned(c, DeliverAppendResp(r, committed))
  {
    hide Reaches, Inv, RuleValue, AckedQuorum, Founded;
    var (a, v) := (DeliverAppendResp(r, committed), r.dst);
    ReachInv(n, c, c);
    ClusterSteps.StepInv(c, a);
    if committed > c.servers[v].quickCommit { RuleIsAcked(Step(c, a), v, committed); }
  }
}
