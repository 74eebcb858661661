/**
 From every reachable state, any majority of servers can elect one of its members, bring itself up
 to date with it and commit its whole log, in a run that follows the commit rule.
 */
module Progress {
  import opened Basics
  import opened LogEntries
  import opened Quorums
  import opened Raft
  import opened Cluster
  import opened ClusterInv
  import opened ClusterTheorems
  import opened CatchUp
  import opened Refinement
  import opened CommitRule
  import opened ClusterExample
  import opened Votes
  import opened Electable
  import opened Alone

  // ----- the rule always selects an index

  lemma {:induction false} BoundOf(peers: map<nat, Peer>, some: set<nat>) returns (top: nat)
    ensures forall p :: p in some && p in peers ==> peers[p].matched < top
  {
    if some == {} {
      top := 0;
    } else {
      var p :| p in some;
      top := BoundOf(peers, some - {p});
      if p in peers && peers[p].matched >= top { top := peers[p].matched + 1; }
    }
  }

  lemma SupportFalls(s: Server, k: nat, k': nat)
    requires k <= k'
    ensures |Supporters(s, k')| <= |Supporters(s, k)|
  {
    SubsetSize(Supporters(s, k'), Supporters(s, k));
  }

  lemma EverybodySupports(s: Server)
    requires s.id !in s.peers
    ensures |Supporters(s, 0)| == NumVoting(s)
  {
    assert PeersAt(s.peers, 0) == s.peers.Keys;
    SupportersSize(s, 0);
  }

  lemma {:induction false} LastSupported(s: Server, lo: nat, hi: nat) returns (idx: nat)
    requires lo < hi && |Supporters(s, lo)| > Quorum(NumVoting(s)) >= |Supporters(s, hi)|
    ensures RuleValue(s, idx)
    decreases hi - lo
  {
    hide Supporters;
    if |Supporters(s, lo + 1)| <= Quorum(NumVoting(s)) {
      idx := lo;
      forall k: nat ensures |Supporters(s, k)| > Quorum(NumVoting(s)) <==> k <= idx {
        if k <= lo { SupportFalls(s, k, lo); } else { SupportFalls(s, lo + 1, k); }
      }
    } else {
      idx := LastSupported(s, lo + 1, hi);
    }
  }

  lemma RuleSelects(s: Server) returns (idx: nat)
    requires s.id !in s.peers
    ensures RuleValue(s, idx)
  {
    var top := BoundOf(s.peers, s.peers.Keys);
    var hi := Max(top, s.precommit + 1);
    assert Supporters(s, hi) == {};
    EverybodySupports(s);
    idx := LastSupported(s, 0, hi);
  }

  // ----- a round in the cluster

  /** Leader v and follower w of a cluster, ready for a round. */
  ghost predicate Together(c: State, v: nat, w: nat) {
    && v < |c.servers| && w < |c.servers| && v != w
    && c.servers[v].id == v && c.servers[w].id == w && v !in c.servers[v].peers
    && Paired(c.servers[v], c.servers[w])
  }

  /** What the follower answers; it always answers a leader of its term. */
  function Answer(l: Server, f: Server, count: nat): Option<AppendResp>
    requires CanSend(l, f.id, count)
  {
    HandleAppend(UpdateTerm(f, l.term), BuildAppendReq(l, f.id, count), false, None).1
  }

  lemma AnswerShape(l: Server, f: Server, count: nat)
    requires Paired(l, f) && CanSend(l, f.id, count)
    ensures var r := Answer(l, f, count);
            && r.Some? && r.value.src == f.id && r.value.dst == l.id && r.value.term == l.term
            && (r.value.accepted ==> r.value.next > 0) && (r.value.accepted <==> Aligned(l, f))
  {
    hide WriteEntries, Match, Ordered, Owned;
    AlignedIffOkay(l, f);
  }

  /** The leader is the same but for what it knows about w and for its commit index. */
  predicate SameLeader(l: Server, l': Server, w: nat) {
    && w in l.peers && w in l'.peers
    && l' == l.(peers := l.peers[w := l'.peers[w]], quickCommit := l'.quickCommit)
  }

  lemma RoundPath(c: State, v: nat, w: nat, count: nat) returns (c': State, committed: nat)
    requires Together(c, v, w) && CanSend(c.servers[v], w, count)
    ensures Path(c, c', false)
    ensures var (l, f) := (c.servers[v], c.servers[w]);
            && c'.servers == c.servers[v := Round(l, f, count, committed).0][w := Round(l, f, count, committed).1]
            && (Aligned(l, f) ==> RuleValue(c'.servers[v], committed) && c'.servers[v].quickCommit >= committed)
  {
    hide Path, HandleAppend, Paired, Aligned, RuleValue, UpdateTerm;
    var (l, f) := (c.servers[v], c.servers[w]);
    var m := BuildAppendReq(l, w, count);
    AnswerShape(l, f, count);
    var r := Answer(l, f, count).value;
    var c1 := SentBy(c, v, w, count);
    var c2 := Answered(c1, m);
    PathThen(c, c1, c2, false, false);
    assert c1.servers[w] == f && c2.servers[v] == c1.servers[v];
    committed := 0;
    if r.accepted { committed := RuleSelects(TakeAck(c2.servers[v], r)); }
    c' := Taken(c2, r, committed);
    PathThen(c, c2, c', false, false);
    if r.accepted { TakenRule(c2.servers[v], r, committed); }
  }

  lemma SentBy(c: State, v: nat, p: nat, count: nat) returns (c': State)
    requires v < |c.servers| && CanSend(c.servers[v], p, count)
    ensures Path(c, c', false) && BuildAppendReq(c.servers[v], p, count) in c'.appReqs
    ensures c'.servers == c.servers[v := SetNext(c.servers[v], p, NextFor(c.servers[v], p))]
  {
    OneStep(c, SendAppend(v, p, count));
    c' := Step(c, SendAppend(v, p, count));
    SendIsStep(c, v, p, count);
  }

  lemma Answered(c: State, m: AppendReq) returns (c': State)
    requires m in c.appReqs && m.dst < |c.servers|
    ensures Path(c, c', false)
    ensures var (s, r) := HandleAppend(UpdateTerm(c.servers[m.dst], m.term), m, false, None);
            && c'.servers == c.servers[m.dst := s]
            && (r.Some? ==> r.value in c'.appResps)
  {
    hide HandleAppend, UpdateTerm;
    OneStep(c, DeliverAppendReq(m, false, None));
    c' := Step(c, DeliverAppendReq(m, false, None));
    AppendReqIsStep(c, m, false, None);
  }

  lemma Taken(c: State, r: AppendResp, committed: nat) returns (c': State)
    requires r in c.appResps && r.dst < |c.servers| && r.term == c.servers[r.dst].term && (r.accepted ==> r.next > 0)
    requires r.accepted && r.src in c.servers[r.dst].peers ==> RuleValue(TakeAck(c.servers[r.dst], r), committed)
    ensures Path(c, c', false)
    ensures c'.servers == c.servers[r.dst := HandleAppendResp(c.servers[r.dst], r, committed)]
  {
    hide HandleAppendResp, RuleValue;
    OneStep(c, DeliverAppendResp(r, committed));
    c' := Step(c, DeliverAppendResp(r, committed));
    AppendRespIsStep(c, r, committed);
  }

  lemma TakenRule(s: Server, r: AppendResp, committed: nat)
    requires r.accepted && r.next > 0 && r.src in s.peers && RuleValue(TakeAck(s, r), committed)
    ensures var s' := HandleAppendResp(s, r, committed);
            RuleValue(s', committed) && s'.quickCommit >= committed
  {
    var (s1, s') := (TakeAck(s, r), HandleAppendResp(s, r, committed));
    assert s'.peers == s1.peers && s'.precommit == s1.precommit && s'.id == s1.id;
    forall k: nat ensures |Supporters(s', k)| > Quorum(NumVoting(s')) <==> k <= committed {
      assert Supporters(s', k) == Supporters(s1, k);
    }
  }

  // ----- one follower

  lemma RoundLeader(l: Server, f: Server, count: nat, committed: nat)
    requires Paired(l, f) && CanSend(l, f.id, count)
    ensures var (l', f') := Round(l, f, count, committed);
            SameLeader(l, l', f.id) && l'.quickCommit >= l.quickCommit && f'.id == f.id
  {
    hide Match, Ordered, Owned, Merge, HandleAppend;
    var l' := Round(l, f, count, committed).0;
    AnswerShape(l, f, count);
    RoundFollower(UpdateTerm(f, l.term), BuildAppendReq(l, f.id, count));
    assert l'.peers == l.peers[f.id := l'.peers[f.id]];
  }

  lemma RoundFollower(s: Server, m: AppendReq)
    ensures HandleAppend(s, m, false, None).0.id == s.id
  {
    hide Merge, SkipCount;
  }

  /** Rounds until the leader knows that follower w has everything it has announced. */
  lemma {:induction false} BringUp(c: State, v: nat, w: nat) returns (c': State, committed: nat)
    requires Together(c, v, w)
    ensures Path(c, c', false) && Together(c', v, w) && c'.servers == c.servers[v := c'.servers[v]][w := c'.servers[w]]
    ensures var (l, l', f') := (c.servers[v], c'.servers[v], c'.servers[w]);
            && SameLeader(l, l', w) && l'.peers[w].matched >= l.precommit && l'.quickCommit >= l.quickCommit
            && l.log[..l.precommit] <= f'.log <= l.log && f'.quickCommit >= Min(l.quickCommit, l.precommit)
            && RuleValue(l', committed) && l'.quickCommit >= committed
    decreases Distance(c.servers[v], c.servers[w])
  {
    hide Path, Round, RuleValue, Match, Ordered, Owned;
    var (l, f) := (c.servers[v], c.servers[w]);
    var count := if NextFor(l, w) <= l.precommit then 1 else 0;
    c', committed := RoundPath(c, v, w, count);
    RoundLeader(l, f, count, committed);
    RoundProgress(l, f, count, committed);
    if Distance(l, f) == 0 {
      LastRound(l, f, committed);
      CaughtUp(c'.servers[v], c'.servers[w]);
    } else {
      var c1 := c';
      c', committed := BringUp(c1, v, w);
      PathThen(c, c1, c', false, false);
      SameTwice(l, c1.servers[v], c'.servers[v], w);
    }
  }

  lemma LastRound(l: Server, f: Server, committed: nat)
    requires Paired(l, f) && Distance(l, f) == 0
    ensures CanSend(l, f.id, 0) && Aligned(l, f)
    ensures var (l', f') := Round(l, f, 0, committed);
            l'.peers[f.id].matched == l.precommit && f'.quickCommit >= Min(l.quickCommit, l.precommit)
  {
    hide Match, Ordered, Owned, Merge, Round;
    AlignedIffOkay(l, f);
    AcceptedRound(l, f, 0, committed);
    RoundIndexes(l, f, 0, committed);
  }

  lemma SameTwice(l: Server, l1: Server, l2: Server, w: nat)
    requires SameLeader(l, l1, w) && SameLeader(l1, l2, w)
    ensures SameLeader(l, l2, w)
  {
    assert l2.peers == l.peers[w := l2.peers[w]];
  }

  // ----- all of them

  /** The leader differs from before in what it knows about `some` and in its commit index. */
  predicate Knows(l: Server, l': Server, some: set<nat>) {
    && l' == l.(peers := l'.peers, quickCommit := l'.quickCommit) && l'.peers.Keys == l.peers.Keys
    && l'.quickCommit >= l.quickCommit
    && forall p :: p in l.peers && p !in some ==> l'.peers[p] == l.peers[p]
  }

  /** Leader v knows that server w has what leader l had announced. */
  ghost predicate CaughtBy(c: State, v: nat, l: Server, w: nat) {
    && v < |c.servers| && w < |c.servers| && w in c.servers[v].peers && c.servers[v].peers[w].matched >= l.precommit
    && NextInRange(c.servers[v], w) && c.servers[w].term <= c.servers[v].term
    && l.precommit <= |l.log| && l.log[..l.precommit] <= c.servers[w].log <= l.log
    && c.servers[w].quickCommit >= Min(l.quickCommit, l.precommit)
  }

  ghost predicate AllCaught(c: State, v: nat, l: Server, some: set<nat>) {
    forall w :: w in some ==> CaughtBy(c, v, l, w)
  }

  lemma OneMore(c: State, c1: State, c': State, v: nat, w: nat, rest: set<nat>)
    requires v < |c.servers| && v !in rest && w !in rest && v != w && w < |c.servers| && OnlyThese(c, c1, rest + {v})
    requires Knows(c.servers[v], c1.servers[v], rest) && AllCaught(c1, v, c.servers[v], rest)
    requires |c'.servers| == |c1.servers| && c'.servers == c1.servers[v := c'.servers[v]][w := c'.servers[w]]
    requires SameLeader(c1.servers[v], c'.servers[v], w) && CaughtBy(c', v, c.servers[v], w)
    requires c'.servers[v].quickCommit >= c1.servers[v].quickCommit
    ensures OnlyThese(c, c', rest + {w} + {v}) && Knows(c.servers[v], c'.servers[v], rest + {w})
    ensures AllCaught(c', v, c.servers[v], rest + {w})
  {
    forall u | u in rest + {w} ensures CaughtBy(c', v, c.servers[v], u) {
      if u != w { assert CaughtBy(c1, v, c.servers[v], u); }
    }
  }

  lemma {:induction false} BringAll(c: State, v: nat, some: set<nat>) returns (c': State, committed: nat)
    requires v < |c.servers| && v !in some && forall w :: w in some ==> Together(c, v, w)
    ensures Path(c, c', false) && |c'.servers| == |c.servers|
    ensures OnlyThese(c, c', some + {v}) && Knows(c.servers[v], c'.servers[v], some)
    ensures some != {} ==> RuleValue(c'.servers[v], committed) && c'.servers[v].quickCommit >= committed
    ensures AllCaught(c', v, c.servers[v], some)
    decreases |some|
  {
    hide Path, RuleValue, Together, SameLeader, AllCaught, OnlyThese, Knows;
    if some == {} {
      NoSteps(c);
      NothingYet(c, v);
      c', committed := c, 0;
    } else {
      var w :| w in some;
      var rest := some - {w};
      var c1, _ := BringAll(c, v, rest);
      StaysTogether(c, c1, v, w, rest);
      c', committed := BringOne(c, c1, v, w, rest);
      PathThen(c, c1, c', false, false);
      assert rest + {w} == some;
    }
  }

  lemma NothingYet(c: State, v: nat)
    requires v < |c.servers|
    ensures OnlyThese(c, c, {} + {v}) && Knows(c.servers[v], c.servers[v], {}) && AllCaught(c, v, c.servers[v], {})
  {
  }

  lemma BringOne(c: State, c1: State, v: nat, w: nat, rest: set<nat>) returns (c': State, committed: nat)
    requires v < |c.servers| == |c1.servers| && v !in rest && w !in rest && OnlyThese(c, c1, rest + {v})
    requires Knows(c.servers[v], c1.servers[v], rest) && AllCaught(c1, v, c.servers[v], rest) && Together(c1, v, w)
    ensures Path(c1, c', false) && |c'.servers| == |c.servers|
    ensures OnlyThese(c, c', rest + {w} + {v}) && Knows(c.servers[v], c'.servers[v], rest + {w})
    ensures AllCaught(c', v, c.servers[v], rest + {w})
    ensures RuleValue(c'.servers[v], committed) && c'.servers[v].quickCommit >= committed
  {
    hide Path, RuleValue, Match, Ordered, Owned, AllCaught;
    c', committed := BringUp(c1, v, w);
    OneMore(c, c1, c', v, w, rest);
  }

  lemma StaysTogether(c: State, c': State, v: nat, w: nat, some: set<nat>)
    requires Together(c, v, w) && w !in some && |c'.servers| == |c.servers|
    requires OnlyThese(c, c', some + {v}) && Knows(c.servers[v], c'.servers[v], some)
    ensures Together(c', v, w)
  {
    hide Match, Ordered, Owned;
  }

  // ----- any majority commits

  lemma PathOn(n: nat, c: State, c': State, stale: bool)
    requires Reaches(n, c, c) && Path(c, c', stale)
    ensures Reaches(n, c', c')
  {
    hide Step, Enabled, Init, RuleAt;
    var s: seq<State>, a: seq<Action>, i: nat :|
      IsRun(s, a) && s[0] == Init(n) && i < |s| && s[i] == c && s[|s| - 1] == c;
    var s', a' :| RuleRun(s', a', stale) && s'[0] == c && s'[|s'| - 1] == c';
    var (states, actions) := (s + s'[1..], a + a');
    forall k | 0 <= k < |actions| ensures Follows(states, actions, k) {
      if k < |a| { assert Follows(s, a, k); } else { assert Follows(s', a', k - |a|); }
    }
    assert IsRun(states, actions) && states[|states| - 1] == c';
  }

  lemma NewLeaderTogether(n: nat, c: State, s: Server, v: nat, w: nat, conf: LogEntry)
    requires Reaches(n, c, c) && v < |c.servers| && w < |c.servers| && v != w && Leads(s, c.servers[v], conf)
    requires c.servers[w].term <= c.servers[v].term
    ensures Together(c, v, w)
  {
    hide Reaches, Inv, Paired;
    ReachInv(n, c, c);
    Members(c, v);
    assert w in c.servers[v].peers.Keys;
    ReachablePair(n, c, v, w);
  }

  /** Members that all have an index make a majority for it. */
  lemma MajoritySupports(c: State, l: Server, v: nat, some: set<nat>, k: nat, committed: nat)
    requires v in some && Majority(some, Ids(|c.servers|)) && l.id == v && NumVoting(l) == |c.servers|
    requires l.precommit >= k && forall w :: w in some && w != v ==> w in l.peers && l.peers[w].matched >= k
    requires RuleValue(l, committed)
    ensures k <= committed
  {
    assert some <= Supporters(l, k);
    SubsetSize(some, Supporters(l, k));
  }

  /** Once the others of a majority have the leader's log, the rule has committed it. */
  lemma LeaderCommits(n: nat, c: State, c': State, v: nat, some: set<nat>, committed: nat)
    requires Reaches(n, c', c') && Majority(some, Ids(|c'.servers|)) && v in some && v < |c'.servers| == |c.servers|
    requires c'.servers[v].role == Leader && Knows(c.servers[v], c'.servers[v], some - {v})
    requires AllCaught(c', v, c.servers[v], some - {v})
    requires some - {v} != {} ==> RuleValue(c'.servers[v], committed) && c'.servers[v].quickCommit >= committed
    ensures c'.servers[v].quickCommit >= c'.servers[v].precommit
  {
    hide Reaches, Inv, RuleValue, Majority, AllCaught, Supporters;
    ReachInv(n, c', c');
    Members(c', v);
    var l' := c'.servers[v];
    if some - {v} == {} {
      LoneMajority(some, v, |c'.servers|);
      assert l'.peers.Keys == {};
      AloneCommits(n, c', v);
    } else {
      forall w | w in some && w != v ensures w in l'.peers && l'.peers[w].matched >= l'.precommit {
        CaughtOne(c', v, c.servers[v], some - {v}, w);
      }
      MajoritySupports(c', l', v, some, l'.precommit, committed);
    }
  }

  lemma LoneMajority(some: set<nat>, v: nat, n: nat)
    requires v in some && some - {v} == {} && Majority(some, Ids(n))
    ensures Ids(n) == {v}
  {
    assert some == {v};
    assert |Ids(n) - {v}| == 0;
  }

  lemma CaughtOne(c: State, v: nat, l: Server, some: set<nat>, w: nat)
    requires AllCaught(c, v, l, some) && w in some
    ensures CaughtBy(c, v, l, w)
  {
  }

  lemma CaughtTogether(n: nat, c: State, v: nat, l: Server, w: nat)
    requires Reaches(n, c, c) && CaughtBy(c, v, l, w) && v != w && c.servers[v].role == Leader
    ensures Together(c, v, w)
  {
    hide Reaches, Inv, Paired, NextInRange;
    ReachInv(n, c, c);
    Members(c, v);
    ReachablePair(n, c, v, w);
  }

  /** A second pass tells the others that it is committed. */
  lemma SpreadCommit(n: nat, c: State, v: nat, l: Server, rest: set<nat>) returns (c': State)
    requires Reaches(n, c, c) && v < |c.servers| && c.servers[v].role == Leader && v !in rest && AllCaught(c, v, l, rest)
    requires c.servers[v].quickCommit >= c.servers[v].precommit == |c.servers[v].log|
    ensures Path(c, c', false) && |c'.servers| == |c.servers| && OnlyThese(c, c', rest + {v})
    ensures c'.servers[v] == c.servers[v].(peers := c'.servers[v].peers, quickCommit := c'.servers[v].quickCommit)
    ensures var s := c'.servers[v];
            && s.quickCommit >= |s.log|
            && forall w :: w in rest ==> w < |c.servers| && c'.servers[w].log == s.log && c'.servers[w].quickCommit >= |s.log|
  {
    hide Path, Reaches, Together, RuleValue, AllCaught, OnlyThese, NextInRange;
    forall w | w in rest ensures Together(c, v, w) {
      CaughtOne(c, v, l, rest, w);
      CaughtTogether(n, c, v, l, w);
    }
    var committed;
    c', committed := BringAll(c, v, rest);
    var s := c.servers[v];
    forall w | w in rest ensures w < |c.servers| && c'.servers[w].log == s.log && c'.servers[w].quickCommit >= |s.log| {
      CaughtOne(c', v, s, rest, w);
      assert s.log[..s.precommit] == s.log;
    }
  }

  /** A new leader with a majority not ahead in term replicates and commits its whole log there. */
  lemma NewLeaderCommits(n: nat, c: State, s: Server, v: nat, some: set<nat>, conf: LogEntry) returns (c': State)
    requires Reaches(n, c, c) && Majority(some, Ids(|c.servers|)) && v in some && v < |c.servers|
    requires Leads(s, c.servers[v], conf)
    requires forall w :: w in some ==> w < |c.servers| && c.servers[w].term <= c.servers[v].term
    ensures Path(c, c', false) && OnlyThese(c, c', some)
    ensures var (l, l') := (c.servers[v], c'.servers[v]);
            && l' == l.(peers := l'.peers, quickCommit := l'.quickCommit)
            && forall w :: w in some ==> c'.servers[w].log == l.log && c'.servers[w].quickCommit >= |l.log|
  {
    hide Path, Reaches, Together, RuleValue, AllCaught, Majority;
    var rest := some - {v};
    forall w | w in rest ensures Together(c, v, w) { NewLeaderTogether(n, c, s, v, w, conf); }
    var c1, committed := BringAll(c, v, rest);
    PathOn(n, c, c1, false);
    LeaderCommits(n, c, c1, v, some, committed);
    c' := SpreadCommit(n, c1, v, c.servers[v], rest);
    PathThen(c, c1, c', false, false);
  }

  /**
   In every reachable state, every majority of servers can elect one of its members and commit its
   whole log, by the commit rule and without a response of an older term, in a run that changes
   nobody else; all of its members then have that log and have committed all of it.
   */
  lemma MajorityCommits(n: nat, c: State, some: set<nat>, conf: LogEntry) returns (c': State, v: nat)
    requires Reaches(n, c, c) && Majority(some, Ids(|c.servers|))
    ensures Path(c, c', false) && OnlyThese(c, c', some) && v in some && v < |c.servers|
    ensures var l := c'.servers[v];
            && Best(c, some, v) && l.role == Leader && l.log == c.servers[v].log + [OwnTermConf(l.term, conf)]
            && forall w :: w in some ==>
                 w < |c.servers| && c'.servers[w].log == l.log && c'.servers[w].quickCommit >= |l.log|
  {
    hide Path, Reaches, Best, Majority;
    var c1;
    c1, v := MajorityElects(n, c, some, conf);
    PathOn(n, c, c1, false);
    c' := NewLeaderCommits(n, c1, c.servers[v].(term := c1.servers[v].term), v, some, conf);
    PathThen(c, c1, c', false, false);
  }
}
