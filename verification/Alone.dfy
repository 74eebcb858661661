/** A server without peers commits what it announces: nobody else's response would make it do so. */
module Alone {
  import opened Basics
  import opened LogEntries
  import opened Raft
  import opened Cluster
  import opened ClusterLead

  predicate AloneOk(s: Server) {
    s.role == Leader && s.peers == map[] ==> s.quickCommit >= s.precommit
  }

  predicate AloneInv(c: State) {
    forall v :: 0 <= v < |c.servers| ==> AloneOk(c.servers[v])
  }

  /** Only server v changes. */
  predicate Touches(c: State, c': State, v: nat) {
    && v < |c.servers| == |c'.servers|
    && forall w :: 0 <= w < |c.servers| && w != v ==> c'.servers[w] == c.servers[w]
  }

  lemma KeepAlone(c: State, c': State, v: nat)
    requires AloneInv(c) && Touches(c, c', v) && AloneOk(c'.servers[v])
    ensures AloneInv(c')
  {
  }

  lemma CrownAlone(c: State, v: nat, conf: LogEntry)
    requires v < |c.servers|
    ensures Touches(c, Crown(c, v, conf), v) && AloneOk(Crown(c, v, conf).servers[v])
  {
    var s := c.servers[v].(electionCompleted := true);
    var peers := map p | p in s.peers :: s.peers[p].(next := |s.log| + 1);
    assert peers == map[] ==> s.peers == map[] by {
      assert peers.Keys == s.peers.Keys;
    }
  }

  lemma StartVoteAlone(c: State, v: nat, conf: LogEntry)
    requires v < |c.servers|
    ensures var c' := CrownIfElected(Stand(c, v), v, conf); Touches(c, c', v) && AloneOk(c'.servers[v])
  {
    hide Crown;
    CrownAlone(Stand(c, v), v, conf);
  }

  lemma VoteRespAlone(c: State, r: VoteResp, conf: LogEntry)
    requires r.dst < |c.servers| && AloneOk(c.servers[r.dst])
    ensures var c' := TakeVoteResp(c, r, conf); Touches(c, c', r.dst) && AloneOk(c'.servers[r.dst])
  {
    hide Crown;
    CrownAlone(TakeVote(c, r), r.dst, conf);
  }

  lemma AppendReqAlone(c: State, m: AppendReq, declined: bool, stopAfter: Option<nat>)
    requires m.dst < |c.servers| && AloneOk(c.servers[m.dst])
    ensures var c' := AnswerAppend(BumpTerm(c, m.dst, m.term), m, declined, stopAfter);
            Touches(c, c', m.dst) && AloneOk(c'.servers[m.dst])
  {
    hide HandleAppend;
    var c1 := BumpTerm(c, m.dst, m.term);
    AppendServer(c1.servers[m.dst], m, declined, stopAfter);
  }

  lemma OtherAlone(c: State, a: Action)
    requires Enabled(c, a) && !a.StartVote? && !a.DeliverVoteResp? && !a.DeliverAppendReq?
    requires Actor(a) < |c.servers| ==> AloneOk(c.servers[Actor(a)])
    ensures Touches(c, Step(c, a), Actor(a)) && AloneOk(Step(c, a).servers[Actor(a)])
  {
    hide BuildAppendReq, Stamped, TakeAppendResp, AnswerVote, Reboot;
    match a
    case DeliverAppendResp(r, committed) => AppendRespAlone(c, r, committed);
    case DeliverVoteReq(m, ok) => VoteReqAlone(c, m, ok);
    case CrashRestart(v, last) => RebootAlone(c, v, last);
    case _ =>
  }

  lemma AppendRespAlone(c: State, r: AppendResp, committed: nat)
    requires r.dst < |c.servers| && (r.accepted ==> 0 < r.next) && AloneOk(c.servers[r.dst])
    ensures var c' := TakeAppendResp(c, r, committed); Touches(c, c', r.dst) && AloneOk(c'.servers[r.dst])
  {
  }

  lemma VoteReqAlone(c: State, m: VoteReq, priorityOk: bool)
    requires m.dst < |c.servers| && AloneOk(c.servers[m.dst])
    ensures var c' := AnswerVote(BumpTerm(c, m.dst, m.term), m, priorityOk);
            Touches(c, c', m.dst) && AloneOk(c'.servers[m.dst])
  {
  }

  lemma RebootAlone(c: State, v: nat, lastCommit: nat)
    requires v < |c.servers|
    ensures Touches(c, Reboot(c, v, lastCommit), v) && AloneOk(Reboot(c, v, lastCommit).servers[v])
  {
  }

  lemma StepAlone(c: State, a: Action)
    requires AloneInv(c) && Enabled(c, a)
    ensures AloneInv(Step(c, a))
  {
    hide AnswerAppend, TakeVoteResp, CrownIfElected, Stand, BumpTerm, AloneOk;
    match a
    case StartVote(v, conf) => StartVoteAlone(c, v, conf); KeepAlone(c, Step(c, a), v);
    case DeliverVoteResp(r, conf) => VoteRespAlone(c, r, conf); KeepAlone(c, Step(c, a), r.dst);
    case DeliverAppendReq(m, declined, stop) =>
      AppendReqAlone(c, m, declined, stop);
      KeepAlone(c, Step(c, a), m.dst);
    case _ => OtherAlone(c, a); KeepAlone(c, Step(c, a), Actor(a));
  }

  lemma {:induction false} RunAlone(states: seq<State>, actions: seq<Action>, i: nat)
    requires IsRun(states, actions) && AloneInv(states[0]) && i < |states|
    ensures AloneInv(states[i])
  {
    hide AloneInv, Step, Enabled;
    if i == 0 {
    } else {
      RunAlone(states, actions, i - 1);
      assert Follows(states, actions, i - 1);
      StepAlone(states[i - 1], actions[i - 1]);
    }
  }

  /** In every reachable state a leader without peers has committed everything it has announced. */
  lemma AloneCommits(n: nat, c: State, v: nat)
    requires Reaches(n, c, c) && v < |c.servers| && c.servers[v].role == Leader && c.servers[v].peers == map[]
    ensures c.servers[v].quickCommit >= c.servers[v].precommit
  {
    var states: seq<State>, actions: seq<Action>, i: nat :|
      && IsRun(states, actions) && states[0] == Init(n)
      && i < |states| && states[i] == c && states[|states| - 1] == c;
    InitAlone(n);
    RunAlone(states, actions, i);
  }

  lemma InitAlone(n: nat)
    ensures AloneInv(Init(n))
  {
    forall v | 0 <= v < n ensures AloneOk(Init(n).servers[v]) {
      assert Init(n).servers[v] == Fresh(v, n);
    }
  }
}
