/** From every reachable state, any majority of servers can elect one of its members. */
module Electable {
  import opened Basics
  import opened LogEntries
  import opened Quorums
  import opened Raft
  import opened Cluster
  import opened ClusterInv
  import opened ClusterSteps
  import opened ClusterTheorems
  import opened ClusterExample
  import opened Votes

  // ----- vote responses belong to terms their candidate has reached

  ghost predicate VoteTerms(c: State) {
    && (forall r :: r in c.voteResps ==> r.dst < |c.servers| && r.reqTerm <= c.servers[r.dst].term)
    && (forall x :: x in c.answered ==> x.0 < |c.servers| && x.2 <= c.servers[x.0].term)
  }

  /** Terms do not fall, and new responses and answers are about terms already reached. */
  ghost predicate TermStep(c: State, c': State) {
    && |c'.servers| == |c.servers|
    && (forall v :: 0 <= v < |c.servers| ==> c.servers[v].term <= c'.servers[v].term)
    && (forall r :: r in c'.voteResps && r !in c.voteResps ==> r.dst < |c.servers| && r.reqTerm <= c.servers[r.dst].term)
    && (forall x :: x in c'.answered && x !in c.answered ==> x.0 < |c.servers| && x.2 <= c.servers[x.0].term)
  }

  lemma KeepVoteTerms(c: State, c': State)
    requires VoteTerms(c) && TermStep(c, c')
    ensures VoteTerms(c')
  {
  }

  lemma CrownTerms(c: State, v: nat, conf: LogEntry)
    requires v < |c.servers|
    ensures var c' := Crown(c, v, conf);
            && |c'.servers| == |c.servers| && c'.voteResps == c.voteResps && c'.answered == c.answered
            && forall w :: 0 <= w < |c.servers| ==> c'.servers[w].term == c.servers[w].term
  {
  }

  lemma StartVoteTerms(c: State, v: nat, conf: LogEntry)
    requires v < |c.servers|
    ensures TermStep(c, CrownIfElected(Stand(c, v), v, conf))
  {
    hide Crown;
    CrownTerms(Stand(c, v), v, conf);
  }

  lemma VoteRespTerms(c: State, r: VoteResp, conf: LogEntry)
    requires VoteTerms(c) && r in c.voteResps && r.dst < |c.servers|
    ensures TermStep(c, TakeVoteResp(c, r, conf))
  {
    hide Crown, CountVote, Elected;
    CrownTerms(TakeVote(c, r), r.dst, conf);
    CountTerm(c.servers[r.dst], r);
  }

  lemma CountTerm(s: Server, r: VoteResp)
    ensures CountVote(s, r).term == s.term
  {
  }

  lemma AppendTerms(c: State, m: AppendReq, declined: bool, stopAfter: Option<nat>)
    requires m.dst < |c.servers|
    ensures TermStep(c, AnswerAppend(BumpTerm(c, m.dst, m.term), m, declined, stopAfter))
  {
    hide WriteEntries;
    WriteTerm(c.servers[m.dst], m, stopAfter);
    WriteTerm(UpdateTerm(c.servers[m.dst], m.term), m, stopAfter);
  }

  lemma WriteTerm(s: Server, m: AppendReq, stopAfter: Option<nat>)
    ensures m.prevIdx <= |s.log| ==> WriteEntries(BecomeFollower(s), m, stopAfter).term == s.term
  {
    hide Merge, SkipCount;
  }

  lemma VoteReqTerms(c: State, m: VoteReq, priorityOk: bool)
    requires Inv(c) && m in c.voteReqs && m.dst < |c.servers|
    ensures TermStep(c, AnswerVote(BumpTerm(c, m.dst, m.term), m, priorityOk))
  {
    assert VoteReqOk(c, m);
  }

  lemma StepTerms(c: State, a: Action)
    requires Inv(c) && VoteTerms(c) && Enabled(c, a)
    ensures TermStep(c, Step(c, a))
  {
    hide Inv, VoteTerms, AnswerAppend, AnswerVote, TakeVoteResp, CrownIfElected, Stand, BumpTerm, TermStep;
    match a
    case StartVote(v, conf) => StartVoteTerms(c, v, conf);
    case DeliverVoteReq(m, ok) => VoteReqTerms(c, m, ok);
    case DeliverVoteResp(r, conf) => VoteRespTerms(c, r, conf);
    case DeliverAppendReq(m, declined, stop) => AppendTerms(c, m, declined, stop);
    case DeliverAppendResp(r, committed) => AppendRespTerms(c, r, committed);
    case _ => QuietTerms(c, a);
  }

  lemma AppendRespTerms(c: State, r: AppendResp, committed: nat)
    requires r.dst < |c.servers| && (r.accepted ==> 0 < r.next)
    ensures TermStep(c, TakeAppendResp(c, r, committed))
  {
  }

  lemma QuietTerms(c: State, a: Action)
    requires Enabled(c, a)
    requires a.ClientStore? || a.ClientDone? || a.Reconnect? || a.SendAppend? || a.StepDown? || a.PreVote? || a.CrashRestart?
    ensures TermStep(c, Step(c, a))
  {
    hide BuildAppendReq, Stamped;
  }

  lemma {:induction false} RunVoteTerms(states: seq<State>, actions: seq<Action>, i: nat)
    requires IsRun(states, actions) && Inv(states[0]) && VoteTerms(states[0]) && i < |states|
    ensures VoteTerms(states[i])
  {
    hide Inv, VoteTerms, TermStep, Step, Enabled;
    if i == 0 {
    } else {
      RunVoteTerms(states, actions, i - 1);
      RunInv(states, actions, i - 1);
      assert Follows(states, actions, i - 1);
      StepTerms(states[i - 1], actions[i - 1]);
      KeepVoteTerms(states[i - 1], states[i]);
    }
  }

  lemma ReachVoteTerms(n: nat, c: State)
    requires Reaches(n, c, c)
    ensures VoteTerms(c)
  {
    hide Inv;
    var states: seq<State>, actions: seq<Action>, i: nat :|
      && IsRun(states, actions) && states[0] == Init(n)
      && i < |states| && states[i] == c && states[|states| - 1] == c;
    InitInv(n);
    RunVoteTerms(states, actions, i);
  }

  // ----- standing in a new term

  /** A candidate with only its own vote, whose ballots of the term are on the network. */
  ghost predicate Stood(s: Server, c: State, v: nat, term: nat) {
    && v < |c.servers|
    && c.servers[v] == s.(term := term, votedFor := s.id, role := Candidate, votesGranted := 1, votesResponded := 1,
                          electionCompleted := false)
    && forall p :: p in s.peers ==> Ballot(c.servers[v], p) in c.voteReqs
  }

  lemma StandOnce(c: State, v: nat, conf: LogEntry) returns (c': State)
    requires v < |c.servers| && c.servers[v].peers != map[]
    ensures Path(c, c', false) && Stood(c.servers[v], c', v, c.servers[v].term + 1)
    ensures c'.servers == c.servers[v := c'.servers[v]] && c'.answered == c.answered && c'.voteResps == c.voteResps
  {
    hide BecomeLeader;
    assert |c.servers[v].peers| > 0;
    OneStep(c, StartVote(v, conf));
    c' := Step(c, StartVote(v, conf));
  }

  lemma {:induction false} Climb(c: State, v: nat, term: nat, conf: LogEntry) returns (c': State)
    requires v < |c.servers| && c.servers[v].peers != map[] && c.servers[v].term < term
    ensures Path(c, c', false) && Stood(c.servers[v], c', v, term)
    ensures c'.servers == c.servers[v := c'.servers[v]] && c'.answered == c.answered && c'.voteResps == c.voteResps
    decreases term - c.servers[v].term
  {
    hide Path;
    c' := StandOnce(c, v, conf);
    if c.servers[v].term + 1 < term {
      var c1 := c';
      c' := Climb(c1, v, term, conf);
      PathThen(c, c1, c', false, false);
    }
  }

  // ----- collecting votes

  /** Server v stands in its term with `votes` votes, and the servers of `left` have not been asked yet. */
  ghost predicate Collecting(c: State, v: nat, votes: nat, left: set<nat>) {
    && v < |c.servers| && c.servers[v].id == v && NumVoting(c.servers[v]) == |c.servers|
    && !c.servers[v].electionCompleted && c.servers[v].votesGranted == c.servers[v].votesResponded == votes
    && votes <= Quorum(|c.servers|) < votes + |left|
    && forall w :: w in left ==>
      && w < |c.servers| && w != v && w in c.servers[v].peers && c.servers[w].id == w
      && c.servers[w].term < c.servers[v].term && !Newer(c.servers[w].log, c.servers[v].log)
      && Ballot(c.servers[v], w) in c.voteReqs && (v, w, c.servers[v].term) !in c.answered
  }

  lemma AskOne(c: State, v: nat, w: nat, votes: nat, left: set<nat>) returns (c': State)
    requires Collecting(c, v, votes, left) && w in left
    ensures Path(c, c', false) && c'.voteReqs == c.voteReqs && c'.answered == c.answered
    ensures var (l, f) := (c.servers[v], c.servers[w]);
            && c'.servers == c.servers[w := UpdateTerm(f, l.term).(votedFor := v)]
            && VoteResp(w, v, l.term, l.term, true) in c'.voteResps
  {
    var m := Ballot(c.servers[v], w);
    GrantedIff(c.servers[w], c.servers[v].log, m, true);
    OneStep(c, DeliverVoteReq(m, true));
    c' := Step(c, DeliverVoteReq(m, true));
  }

  lemma CountOne(c: State, v: nat, r: VoteResp, conf: LogEntry) returns (c': State)
    requires v < |c.servers| && r in c.voteResps && r.dst == v && r.accepted && (v, r.src, r.reqTerm) !in c.answered
    requires r.term == c.servers[v].term && !c.servers[v].electionCompleted
    ensures Path(c, c', false) && c'.voteReqs == c.voteReqs && c'.answered == c.answered + {(v, r.src, r.reqTerm)}
    ensures var s := CountVote(c.servers[v], r);
            c'.servers == c.servers[v := if Elected(s) then BecomeLeader(s.(electionCompleted := true), conf) else s]
  {
    hide BecomeLeader;
    OneStep(c, DeliverVoteResp(r, conf));
    c' := Step(c, DeliverVoteResp(r, conf));
  }

  /** Only the servers of `some` have changed. */
  predicate OnlyThese(c: State, c': State, some: set<nat>) {
    |c'.servers| == |c.servers| && forall w: nat :: w < |c.servers| && w !in some ==> c'.servers[w] == c.servers[w]
  }

  /** The server leads in its term with its own config entry, announced, at the end of its log. */
  ghost predicate Leads(s: Server, s': Server, conf: LogEntry) {
    && s'.role == Leader && s'.term == s.term && s'.id == s.id
    && s'.log == s.log + [OwnTermConf(s.term, conf)] && s'.precommit == |s'.log|
    && s'.peers.Keys == s.peers.Keys && forall p :: p in s'.peers ==> s'.peers[p].next == |s'.log|
  }

  lemma LeaderShape(s: Server, conf: LogEntry)
    ensures Leads(s, BecomeLeader(s, conf), conf)
  {
    var peers := map p | p in s.peers :: s.peers[p].(next := |s.log| + 1);
    assert BecomeLeader(s, conf).peers == peers && peers.Keys == s.peers.Keys;
  }

  predicate SameAsBefore(s: Server, s': Server) {
    s'.term == s.term && s'.log == s.log && s'.id == s.id && s'.peers == s.peers
  }

  /** One voter is asked and its answer counted: the candidate leads, or goes on collecting. */
  lemma CollectOne(c: State, v: nat, w: nat, votes: nat, left: set<nat>, conf: LogEntry) returns (c': State)
    requires Collecting(c, v, votes, left) && w in left
    ensures Path(c, c', false) && OnlyThese(c, c', {v, w})
    ensures v < |c.servers| && v < |c'.servers| && w < |c.servers| && c'.servers[w].term == c.servers[v].term
    ensures Leads(c.servers[v], c'.servers[v], conf) ||
            (Collecting(c', v, votes + 1, left - {w})
             && SameAsBefore(c.servers[v], c'.servers[v]))
  {
    hide Path, BecomeLeader;
    var t := c.servers[v].term;
    var r := VoteResp(w, v, t, t, true);
    var c1 := AskOne(c, v, w, votes, left);
    assert c1.servers[v] == c.servers[v];
    c' := CountOne(c1, v, r, conf);
    PathThen(c, c1, c', false, false);
    var s := CountVote(c.servers[v], r);
    if Elected(s) {
      LeaderShape(s.(electionCompleted := true), conf);
    } else {
      StillCollecting(c, c', v, w, votes, left);
    }
  }

  lemma SomeLeft(c: State, v: nat, votes: nat, left: set<nat>)
    requires Collecting(c, v, votes, left)
    ensures left != {}
  {
  }

  lemma LeftBehind(c: State, v: nat, votes: nat, left: set<nat>)
    requires Collecting(c, v, votes, left)
    ensures v < |c.servers| && v !in left
    ensures forall w :: w in left ==> w < |c.servers| && c.servers[w].term < c.servers[v].term
  {
  }

  lemma {:induction false} Collect(c: State, v: nat, votes: nat, left: set<nat>, conf: LogEntry) returns (c': State)
    requires Collecting(c, v, votes, left)
    ensures Path(c, c', false) && OnlyThese(c, c', left + {v})
    ensures v < |c.servers| && v < |c'.servers| && Leads(c.servers[v], c'.servers[v], conf)
    ensures forall w :: w in left ==> w < |c'.servers| && c'.servers[w].term <= c.servers[v].term
    decreases |left|
  {
    hide Path, Collecting;
    SomeLeft(c, v, votes, left);
    LeftBehind(c, v, votes, left);
    var w :| w in left;
    c' := CollectOne(c, v, w, votes, left, conf);
    if !Leads(c.servers[v], c'.servers[v], conf) {
      var c1 := c';
      c' := Collect(c1, v, votes + 1, left - {w}, conf);
      PathThen(c, c1, c', false, false);
    }
  }

  lemma StillCollecting(c: State, c2: State, v: nat, w: nat, votes: nat, left: set<nat>)
    requires Collecting(c, v, votes, left) && w in left && c2.voteReqs == c.voteReqs && |c2.servers| == |c.servers|
    requires c2.answered == c.answered + {(v, w, c.servers[v].term)}
    requires var r := VoteResp(w, v, c.servers[v].term, c.servers[v].term, true);
             c2.servers[v] == CountVote(c.servers[v], r) && !Elected(c2.servers[v])
    requires forall u :: 0 <= u < |c.servers| && u != v && u != w ==> c2.servers[u] == c.servers[u]
    ensures Collecting(c2, v, votes + 1, left - {w})
  {
    forall u | u in left - {w} ensures Ballot(c2.servers[v], u) in c2.voteReqs {
      assert Ballot(c2.servers[v], u) == Ballot(c.servers[v], u);
    }
  }

  // ----- any majority

  lemma {:induction false} TermAbove(c: State, some: set<nat>) returns (term: nat)
    ensures forall w :: w in some && w < |c.servers| ==> c.servers[w].term < term
  {
    if some == {} {
      term := 0;
    } else {
      var w :| w in some;
      term := TermAbove(c, some - {w});
      if w < |c.servers| && c.servers[w].term >= term { term := c.servers[w].term + 1; }
    }
  }

  lemma Members(c: State, v: nat)
    requires Inv(c) && v < |c.servers|
    ensures NumVoting(c.servers[v]) == |c.servers|
    ensures forall w :: 0 <= w < |c.servers| ==> c.servers[w].id == w && c.servers[w].peers.Keys == Ids(|c.servers|) - {w}
  {
    assert BallotOk(c, v);
    assert |c.servers[v].peers.Keys| == |Ids(|c.servers|) - {v}| == |c.servers| - 1;
    forall w | 0 <= w < |c.servers| ensures c.servers[w].id == w && c.servers[w].peers.Keys == Ids(|c.servers|) - {w} {
      assert BallotOk(c, w);
    }
  }

  lemma ReadyToCollect(c: State, c1: State, some: set<nat>, v: nat, term: nat)
    requires Majority(some, Ids(|c.servers|)) && Best(c, some, v) && VoteTerms(c)
    requires forall w :: w in some && w < |c.servers| ==> c.servers[w].term < term
    requires NumVoting(c.servers[v]) == |c.servers| && c.servers[v].peers != map[]
    requires forall w :: 0 <= w < |c.servers| ==> c.servers[w].id == w && c.servers[w].peers.Keys == Ids(|c.servers|) - {w}
    requires Stood(c.servers[v], c1, v, term) && c1.servers == c.servers[v := c1.servers[v]] && c1.answered == c.answered
    ensures Collecting(c1, v, 1, some - {v})
  {
    hide Ids;
    assert |some - {v}| == |some| - 1;
    assert |c.servers| >= 2;
    forall w | w in some - {v} ensures w in c.servers[v].peers && (v, w, term) !in c.answered {
      assert w in Ids(|c.servers|) - {v};
      assert w in c.servers[v].peers.Keys;
    }
  }

  /** A server without peers elects itself. */
  lemma ElectAlone(c: State, v: nat, conf: LogEntry) returns (c': State)
    requires v < |c.servers| && c.servers[v].peers == map[]
    ensures Path(c, c', false) && OnlyThese(c, c', {v})
    ensures v < |c'.servers| && Leads(Candidacy(c.servers[v]), c'.servers[v], conf)
  {
    hide BecomeLeader;
    OneStep(c, StartVote(v, conf));
    c' := Step(c, StartVote(v, conf));
    LeaderShape(Candidacy(c.servers[v]).(electionCompleted := true), conf);
  }

  /**
   In every reachable state, whatever has been lost or is still under way, every majority of servers
   can elect one of its members, in a run that changes nobody else.
   */
  lemma MajorityElects(n: nat, c: State, some: set<nat>, conf: LogEntry) returns (c': State, v: nat)
    requires Reaches(n, c, c) && Majority(some, Ids(|c.servers|))
    ensures Path(c, c', false) && OnlyThese(c, c', some) && v in some && v < |c.servers| && v < |c'.servers|
    ensures forall w :: w in some && w < |c.servers| ==> c.servers[w].term < c'.servers[v].term
    ensures Best(c, some, v) && Leads(c.servers[v].(term := c'.servers[v].term), c'.servers[v], conf)
    ensures forall w :: w in some ==> w < |c'.servers| && c'.servers[w].term <= c'.servers[v].term
  {
    hide Path, Inv, VoteTerms, Reaches, Newer;
    ReachInv(n, c, c);
    ReachVoteTerms(n, c);
    assert some != {};
    v := BestExists(c, some);
    Members(c, v);
    var term := TermAbove(c, some);
    if c.servers[v].peers == map[] {
      c' := ElectAlone(c, v, conf);
      OnlyOne(c, some, v);
    } else {
      c' := ElectBest(c, some, v, term, conf);
    }
  }

  lemma ElectBest(c: State, some: set<nat>, v: nat, term: nat, conf: LogEntry) returns (c': State)
    requires Majority(some, Ids(|c.servers|)) && Best(c, some, v) && VoteTerms(c)
    requires forall w :: w in some && w < |c.servers| ==> c.servers[w].term < term
    requires NumVoting(c.servers[v]) == |c.servers| && c.servers[v].peers != map[]
    requires forall w :: 0 <= w < |c.servers| ==> c.servers[w].id == w && c.servers[w].peers.Keys == Ids(|c.servers|) - {w}
    ensures Path(c, c', false) && OnlyThese(c, c', some)
    ensures v < |c'.servers| && Leads(c.servers[v].(term := term), c'.servers[v], conf)
    ensures forall w :: w in some ==> w < |c'.servers| && c'.servers[w].term <= term
  {
    hide Path, VoteTerms, Collecting, Newer, Ids, Majority;
    var c1 := Climb(c, v, term, conf);
    ReadyToCollect(c, c1, some, v, term);
    c' := Collect(c1, v, 1, some - {v}, conf);
    PathThen(c, c1, c', false, false);
  }

  lemma OnlyOne(c: State, some: set<nat>, v: nat)
    requires Majority(some, Ids(|c.servers|)) && v in some && v < |c.servers| && c.servers[v].peers == map[]
    requires c.servers[v].peers.Keys == Ids(|c.servers|) - {v}
    ensures forall w :: w in some ==> w == v
  {
    var none := Ids(|c.servers|) - {v};
    assert none == {};
    forall w | w in some ensures w == v {
      assert w == v || w in none;
    }
  }
}
