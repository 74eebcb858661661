/**
 A second invariant of the cluster, about what a leader has announced: all entries of a reign
 are of its term, and no request or acknowledgement of the current term goes beyond the
 leader's pre-commit index.
 */
module ClusterLead {
  import opened Basics
  import opened LogEntries
  import opened Raft
  import opened Cluster
  import opened ClusterInv
  import opened ClusterSteps
  import opened ClusterTheorems

  /** Everything after the log a leader was elected with is of its own term. */
  ghost predicate OwnTail(e: Reign, t: nat) {
    forall i :: |e.base| <= i < |e.log| ==> e.log[i].term == t
  }

  ghost predicate LeadOk(c: State, v: nat)
    requires v < |c.servers|
  {
    var s := c.servers[v];
    s.role == Leader ==>
      && s.term in c.elect && |c.elect[s.term].base| < s.precommit
      && (forall m :: m in c.appReqs && m.term == s.term ==> m.prevIdx + |m.entries| <= s.precommit)
      && (forall r :: r in c.appResps && r.accepted && r.term == s.term ==> r.next <= s.precommit + 1)
  }

  ghost predicate LeadInv(c: State) {
    && (forall t :: t in c.elect ==> OwnTail(c.elect[t], t))
    && (forall v :: 0 <= v < |c.servers| ==> LeadOk(c, v))
  }

  // ----- what a step may do

  /** The server that leads after the step led the same term before, or starts a new reign. */
  ghost predicate Reigns(c: State, c': State, u: nat)
    requires u < |c.servers| == |c'.servers|
  {
    var (s, s') := (c.servers[u], c'.servers[u]);
    s'.role == Leader ==>
      && s'.term in c'.elect
      && if s.role == Leader && s.term == s'.term then
           s.term in c.elect && c'.elect[s.term].base == c.elect[s.term].base && s.precommit <= s'.precommit
         else s'.term !in c.elect && |c'.elect[s'.term].base| < s'.precommit
  }

  ghost predicate TailsGrow(c: State, c': State) {
    forall t :: t in c'.elect ==>
      if t in c.elect then
        && c'.elect[t].base == c.elect[t].base && c.elect[t].log <= c'.elect[t].log
        && (forall i :: |c.elect[t].log| <= i < |c'.elect[t].log| ==> c'.elect[t].log[i].term == t)
      else OwnTail(c'.elect[t], t)
  }

  ghost predicate Announces(c: State, c': State, u: nat)
    requires u < |c.servers| == |c'.servers|
  {
    && (forall m :: m in c'.appReqs && m !in c.appReqs ==>
          c.servers[u].role == Leader && c'.servers[u].role == Leader && m.term == c.servers[u].term == c'.servers[u].term
          && m.prevIdx + |m.entries| <= c'.servers[u].precommit)
    && (forall r :: r in c'.appResps && r !in c.appResps && r.accepted ==> Answers(c, r))
  }

  ghost predicate Answers(c: State, r: AppendResp) {
    exists m :: m in c.appReqs && m.term == r.term && r.next == m.prevIdx + |m.entries| + 1
  }

  ghost predicate LeadStep(c: State, c': State, u: nat) {
    && u < |c.servers| == |c'.servers|
    && (forall w :: 0 <= w < |c.servers| && w != u ==> c'.servers[w] == c.servers[w])
    && Reigns(c, c', u) && TailsGrow(c, c') && Announces(c, c', u)
  }

  // ----- such a step keeps it

  lemma OneLeader(c: State, v: nat, u: nat)
    requires Inv(c) && v < |c.servers| && u < |c.servers|
    requires c.servers[v].role == c.servers[u].role == Leader && c.servers[v].term == c.servers[u].term
    ensures v == u
  {
    assert LogOk(c, v) && LogOk(c, u);
  }

  lemma KnownTerms(c: State)
    requires Inv(c)
    ensures forall m :: m in c.appReqs ==> m.term in c.elect
    ensures forall r :: r in c.appResps && r.accepted ==> r.term in c.elect
  {
    forall m | m in c.appReqs ensures m.term in c.elect { assert AppReqOk(c, m); }
    forall r | r in c.appResps && r.accepted ensures r.term in c.elect {
      assert AppRespOk(c, r);
      assert AccOk(c, r.term, r.src);
    }
  }

  lemma LeaderTerm(c: State, v: nat)
    requires Inv(c) && v < |c.servers|
    ensures c.servers[v].role == Leader ==> c.servers[v].term in c.elect
  {
    assert LogOk(c, v);
  }

  lemma KeepLead(c: State, c': State, u: nat, v: nat)
    requires Inv(c) && Inv(c') && LeadInv(c) && LeadStep(c, c', u) && v < |c'.servers|
    ensures LeadOk(c', v)
  {
    hide Inv;
    var (s, s') := (c.servers[v], c'.servers[v]);
    KnownTerms(c);
    LeaderTerm(c', v);
    if s'.role == Leader {
      assert LeadOk(c, v);
      forall m | m in c'.appReqs && m.term == s'.term ensures m.prevIdx + |m.entries| <= s'.precommit {
        if m !in c.appReqs && u != v { OneLeader(c', u, v); }
      }
      forall r | r in c'.appResps && r.accepted && r.term == s'.term ensures r.next <= s'.precommit + 1 {
        if r !in c.appResps {
          var m :| m in c.appReqs && m.term == r.term && r.next == m.prevIdx + |m.entries| + 1;
        }
      }
    }
  }

  lemma KeepLeadInv(c: State, c': State, u: nat)
    requires Inv(c) && Inv(c') && LeadInv(c) && LeadStep(c, c', u)
    ensures LeadInv(c')
  {
    forall v | 0 <= v < |c'.servers| ensures LeadOk(c', v) { KeepLead(c, c', u, v); }
    forall t | t in c'.elect ensures OwnTail(c'.elect[t], t) {
      if t in c.elect {
        assert OwnTail(c.elect[t], t);
        forall i | |c'.elect[t].base| <= i < |c'.elect[t].log| ensures c'.elect[t].log[i].term == t {
          if i < |c.elect[t].log| { assert c'.elect[t].log[i] == c.elect[t].log[i]; }
        }
      }
    }
  }

  // ----- every step is such a step

  /** Nothing is announced and nobody becomes leader. */
  ghost predicate Calm(c: State, c': State, u: nat) {
    && u < |c.servers|
    && c'.elect == c.elect && c'.appReqs == c.appReqs && c'.appResps == c.appResps
    && |c'.servers| == |c.servers|
    && (forall w :: 0 <= w < |c.servers| && w != u ==> c'.servers[w] == c.servers[w])
    && var (s, s') := (c.servers[u], c'.servers[u]);
       s'.role == Leader ==> s.role == Leader && s'.term == s.term && s.precommit <= s'.precommit
  }

  lemma CalmStep(c: State, c': State, u: nat)
    requires Inv(c) && Calm(c, c', u)
    ensures LeadStep(c, c', u)
  {
    hide Inv;
    LeaderTerm(c, u);
  }

  lemma CrownStep(c: State, c1: State, v: nat, conf: LogEntry)
    requires Calm(c, c1, v) && c1.servers[v].term !in c.elect && c1.servers[v].role != Leader
    requires c.servers[v].role == Leader ==> c.servers[v].term in c.elect
    ensures LeadStep(c, Crown(c1, v, conf), v)
  {
    var (s, c') := (c1.servers[v], Crown(c1, v, conf));
    assert c'.elect[s.term].log == s.log + [OwnTermConf(s.term, conf)];
  }

  lemma StartVoteStep(c: State, v: nat, conf: LogEntry)
    requires Inv(c) && v < |c.servers|
    ensures LeadStep(c, CrownIfElected(Stand(c, v), v, conf), v)
  {
    hide Inv, Crown, LeadStep;
    var c1 := Stand(c, v);
    assert Calm(c, c1, v);
    if Elected(c1.servers[v]) {
      StandInv(c, v);
      FirstLeader(c, c1, v);
      LeaderTerm(c, v);
      CrownStep(c, c1, v, conf);
    } else {
      CalmStep(c, c1, v);
    }
  }

  lemma VoteRespStep(c: State, r: VoteResp, conf: LogEntry)
    requires Inv(c) && r in c.voteResps && r.dst < |c.servers| && (r.dst, r.src, r.reqTerm) !in c.answered
    ensures LeadStep(c, TakeVoteResp(c, r, conf), r.dst)
  {
    hide Inv, Crown, LeadStep;
    var c1 := TakeVote(c, r);
    if r.term <= c.servers[r.dst].term && CountsVote(c.servers[r.dst], r) && Elected(c1.servers[r.dst]) {
      TakeVoteInv(c, r);
      FirstLeader(c, c1, r.dst);
      NoLeaderYet(c1, r.dst);
      assert Calm(c, c1, r.dst);
      LeaderTerm(c, r.dst);
      CrownStep(c, c1, r.dst, conf);
    } else {
      assert Calm(c, TakeVoteResp(c, r, conf), r.dst);
      CalmStep(c, TakeVoteResp(c, r, conf), r.dst);
    }
  }

  lemma NoLeaderYet(c: State, v: nat)
    requires Inv(c) && v < |c.servers| && c.servers[v].term !in c.elect
    ensures c.servers[v].role != Leader
  {
    assert LogOk(c, v);
  }

  lemma StoreStep(c: State, v: nat, e: LogEntry)
    requires Inv(c) && v < |c.servers| && c.servers[v].role == Leader && e.term == c.servers[v].term
    ensures LeadStep(c, LeaderStore(c, v, e), v)
  {
    hide Inv;
    LeaderLog(c, v);
    var (s, c') := (c.servers[v], LeaderStore(c, v, e));
    assert c'.elect == c.elect[s.term := c.elect[s.term].(log := s.log + [e])];
    assert TailsGrow(c, c');
  }

  lemma LeaderLog(c: State, v: nat)
    requires Inv(c) && v < |c.servers| && c.servers[v].role == Leader
    ensures c.servers[v].term in c.elect && c.elect[c.servers[v].term].log == c.servers[v].log
  {
    assert LogOk(c, v);
  }

  lemma SendStep(c: State, v: nat, p: nat, k: nat)
    requires Inv(c) && v < |c.servers| && CanSend(c.servers[v], p, k)
    ensures LeadStep(c, Send(c, v, p, k), v)
  {
    hide Inv;
    LeaderTerm(c, v);
  }

  lemma AppendServer(s: Server, m: AppendReq, declined: bool, stopAfter: Option<nat>)
    requires m.term <= s.term
    ensures var (s', r) := HandleAppend(s, m, declined, stopAfter);
            && (s'.role == Leader ==> s' == s)
            && (r.Some? && r.value.accepted ==> r.value.term == m.term && r.value.next == m.prevIdx + |m.entries| + 1)
  {
    hide WriteEntries, Stops;
    if Accepts(s, m, declined) { WriteKeeps(BecomeFollower(s), m, stopAfter); }
  }

  lemma AppendReqStep(c: State, m: AppendReq, declined: bool, stopAfter: Option<nat>)
    requires Inv(c) && m in c.appReqs && m.dst < |c.servers|
    ensures LeadStep(c, AnswerAppend(BumpTerm(c, m.dst, m.term), m, declined, stopAfter), m.dst)
  {
    hide Inv, HandleAppend;
    LeaderTerm(c, m.dst);
    var c1 := BumpTerm(c, m.dst, m.term);
    AppendServer(c1.servers[m.dst], m, declined, stopAfter);
    var c' := AnswerAppend(c1, m, declined, stopAfter);
    forall r | r in c'.appResps && r !in c.appResps && r.accepted ensures Answers(c, r) {
      assert m in c.appReqs && m.term == r.term && r.next == m.prevIdx + |m.entries| + 1;
    }
  }

  lemma WriteKeeps(s: Server, m: AppendReq, stopAfter: Option<nat>)
    requires m.prevIdx <= |s.log|
    ensures WriteEntries(s, m, stopAfter).role == s.role
  {
    hide Merge, SkipCount;
  }

  lemma VoteReqStep(c: State, m: VoteReq, priorityOk: bool)
    requires Inv(c) && m.dst < |c.servers|
    ensures LeadStep(c, AnswerVote(BumpTerm(c, m.dst, m.term), m, priorityOk), m.dst)
  {
    hide Inv, LeadStep;
    var c' := AnswerVote(BumpTerm(c, m.dst, m.term), m, priorityOk);
    assert Calm(c, c', m.dst);
    CalmStep(c, c', m.dst);
  }

  lemma AppendRespStep(c: State, r: AppendResp, committed: nat)
    requires Inv(c) && r.dst < |c.servers| && (r.accepted ==> 0 < r.next)
    ensures LeadStep(c, TakeAppendResp(c, r, committed), r.dst)
  {
    hide Inv, LeadStep;
    var c' := TakeAppendResp(c, r, committed);
    assert Calm(c, c', r.dst);
    CalmStep(c, c', r.dst);
  }

  /** Steps that touch one server and nothing else. */
  lemma LocalStep(c: State, v: nat, s': Server)
    requires Inv(c) && v < |c.servers|
    requires s'.role == Leader ==>
               c.servers[v].role == Leader && s'.term == c.servers[v].term && c.servers[v].precommit <= s'.precommit
    ensures LeadStep(c, SetServer(c, v, s'), v)
  {
    hide Inv, LeadStep;
    CalmStep(c, SetServer(c, v, s'), v);
  }

  /** The server an action happens at. */
  function Actor(a: Action): nat {
    match a
    case StartVote(v, _) => v
    case DeliverVoteReq(m, _) => m.dst
    case DeliverVoteResp(r, _) => r.dst
    case ClientStore(v, _, _) => v
    case ClientDone(v, _) => v
    case Reconnect(v, _) => v
    case SendAppend(v, _, _) => v
    case DeliverAppendReq(m, _, _) => m.dst
    case DeliverAppendResp(r, _) => r.dst
    case StepDown(v) => v
    case PreVote(v) => v
    case CrashRestart(v, _) => v
  }

  lemma StepIsLeadStep(c: State, a: Action)
    requires Inv(c) && Enabled(c, a)
    ensures LeadStep(c, Step(c, a), Actor(a))
  {
    hide Inv, LeadStep, LeaderStore, Send, AnswerAppend, AnswerVote, TakeVoteResp, TakeAppendResp, Reboot, Stand,
         CrownIfElected, BumpTerm;
    match a
    case StartVote(v, conf) => StartVoteStep(c, v, conf);
    case DeliverVoteReq(m, priorityOk) => VoteReqStep(c, m, priorityOk);
    case DeliverVoteResp(r, conf) => VoteRespStep(c, r, conf);
    case ClientStore(v, e, ts) => StoreStep(c, v, Stamped(e, c.servers[v].term, ts));
    case ClientDone(v, last) => LocalStep(c, v, CommitIfAlone(RaisePrecommit(c.servers[v], last)));
    case Reconnect(v, p) => LocalStep(c, v, ResetPeer(c.servers[v], p));
    case SendAppend(v, p, k) => SendStep(c, v, p, k);
    case DeliverAppendReq(m, declined, stop) => AppendReqStep(c, m, declined, stop);
    case DeliverAppendResp(r, committed) => AppendRespStep(c, r, committed);
    case StepDown(v) => LocalStep(c, v, BecomeFollower(c.servers[v]));
    case PreVote(v) => LocalStep(c, v, c.servers[v].(role := Candidate));
    case CrashRestart(v, lastCommit) => RebootStep(c, v, lastCommit);
  }

  lemma RebootStep(c: State, v: nat, lastCommit: nat)
    requires Inv(c) && v < |c.servers|
    ensures LeadStep(c, Reboot(c, v, lastCommit), v)
  {
    hide Inv, LeadStep;
    assert Calm(c, Reboot(c, v, lastCommit), v);
    CalmStep(c, Reboot(c, v, lastCommit), v);
  }

  lemma StepLeadInv(c: State, a: Action)
    requires Inv(c) && LeadInv(c) && Enabled(c, a)
    ensures LeadInv(Step(c, a))
  {
    hide Inv, LeadInv, Step, LeadStep, Enabled;
    StepInv(c, a);
    StepIsLeadStep(c, a);
    KeepLeadInv(c, Step(c, a), Actor(a));
  }

  lemma {:induction false} RunLeadInv(states: seq<State>, actions: seq<Action>, i: nat)
    requires IsRun(states, actions) && Inv(states[0]) && LeadInv(states[0]) && i < |states|
    ensures LeadInv(states[i])
  {
    hide Inv, LeadInv, Step, Enabled;
    if i == 0 {
    } else {
      RunLeadInv(states, actions, i - 1);
      RunInv(states, actions, i - 1);
      assert Follows(states, actions, i - 1);
      StepLeadInv(states[i - 1], actions[i - 1]);
    }
  }

  lemma ReachLeadInv(n: nat, c: State)
    requires Reaches(n, c, c)
    ensures LeadInv(c)
  {
    hide Inv;
    var states: seq<State>, actions: seq<Action>, i: nat :|
      && IsRun(states, actions) && states[0] == Init(n)
      && i < |states| && states[i] == c && states[|states| - 1] == c;
    InitInv(n);
    InitLead(n);
    RunLeadInv(states, actions, i);
  }

  lemma InitLead(n: nat)
    ensures LeadInv(Init(n))
  {
    forall v | 0 <= v < n ensures LeadOk(Init(n), v) {
      assert Init(n).servers[v] == Fresh(v, n);
    }
  }
}
