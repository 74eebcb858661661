/** A leader never hears from another leader of its term, so every append request is answered. */
module Rivals {
  import opened Basics
  import opened LogEntries
  import opened Raft
  import opened Cluster
  import opened ClusterInv
  import ClusterSteps
  import opened ClusterTheorems

  /** The request is from the leader of its term, to somebody else. */
  ghost predicate FromLeader(c: State, m: AppendReq) {
    m.term in c.elect && c.elect[m.term].leader == m.src && m.src != m.dst
  }

  ghost predicate ReqsInv(c: State) {
    forall m :: m in c.appReqs ==> FromLeader(c, m)
  }

  /** Requests are added by sending only. */
  lemma ReqsAdded(c: State, a: Action)
    requires Enabled(c, a)
    ensures Step(c, a).appReqs ==
            if a.SendAppend? then c.appReqs + {BuildAppendReq(c.servers[a.v], a.peer, a.count)} else c.appReqs
  {
    hide HandleAppend, BuildAppendReq, BecomeLeader, CountVote;
  }

  lemma StepReqs(c: State, a: Action)
    requires Inv(c) && ReqsInv(c) && Enabled(c, a)
    ensures ReqsInv(Step(c, a))
  {
    hide Inv, Step;
    StepGrows(c, a);
    ReqsAdded(c, a);
    if a.SendAppend? { SenderLeads(c, a.v, a.peer); }
    forall m | m in Step(c, a).appReqs ensures FromLeader(Step(c, a), m) {
      assert m in c.appReqs ==> FromLeader(c, m);
    }
  }

  lemma SenderLeads(c: State, v: nat, p: nat)
    requires Inv(c) && v < |c.servers| && c.servers[v].role == Leader && p in c.servers[v].peers
    ensures var s := c.servers[v]; s.term in c.elect && c.elect[s.term].leader == v == s.id && p != v
  {
    assert LogOk(c, v) && BallotOk(c, v);
  }

  lemma {:induction false} RunReqs(states: seq<State>, actions: seq<Action>, i: nat)
    requires IsRun(states, actions) && Inv(states[0]) && ReqsInv(states[0]) && i < |states|
    ensures Inv(states[i]) && ReqsInv(states[i])
  {
    hide Inv, ReqsInv, Step, Enabled;
    if i == 0 {
    } else {
      RunReqs(states, actions, i - 1);
      assert Follows(states, actions, i - 1);
      ClusterSteps.StepInv(states[i - 1], actions[i - 1]);
      StepReqs(states[i - 1], actions[i - 1]);
    }
  }

  /**
   In every reachable state, no request under way reaches a leader of its own term: the branch that
   ignores one is never taken, and the handler answers every request.
   */
  lemma NoRivalLeader(n: nat, c: State, m: AppendReq, declined: bool, stopAfter: Option<nat>)
    requires Reaches(n, c, c) && m in c.appReqs && m.dst < |c.servers|
    ensures var s := c.servers[m.dst];
            && !(s.role == Leader && s.term == m.term)
            && HandleAppend(UpdateTerm(s, m.term), m, declined, stopAfter).1.Some?
  {
    hide Inv;
    var states: seq<State>, actions: seq<Action>, i: nat :|
      && IsRun(states, actions) && states[0] == Init(n)
      && i < |states| && states[i] == c && states[|states| - 1] == c;
    ClusterSteps.InitInv(n);
    RunReqs(states, actions, i);
    assert FromLeader(c, m);
    LeaderOfTerm(c, m.dst);
  }

  lemma LeaderOfTerm(c: State, v: nat)
    requires Inv(c) && v < |c.servers|
    ensures var s := c.servers[v]; s.role == Leader ==> s.term in c.elect && c.elect[s.term].leader == v
  {
    assert LogOk(c, v);
  }
}
