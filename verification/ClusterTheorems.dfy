/** The theorems of sections 5.2 to 5.4 of the Raft paper, for every run of the cluster. */
module ClusterTheorems {
  import opened Basics
  import opened LogEntries
  import opened Quorums
  import opened Raft
  import opened Cluster
  import opened ClusterInv
  import opened ClusterFrame
  import opened ClusterSteps

  // ----- history only grows

  ghost predicate HistoryGrows(c: State, c': State) {
    && |c.servers| == |c'.servers|
    && ElectGrows(c.elect, c'.elect)
    && forall k :: k in c.acc ==> k in c'.acc && c.acc[k] <= c'.acc[k]
  }

  lemma GrowsTransitive(c: State, c1: State, c2: State)
    requires HistoryGrows(c, c1) && HistoryGrows(c1, c2)
    ensures HistoryGrows(c, c2)
  {
    forall t | t in c.elect
      ensures t in c2.elect && c2.elect[t] == c.elect[t].(log := c2.elect[t].log) && c.elect[t].log <= c2.elect[t].log
    {
      assert t in c1.elect && c.elect[t].log <= c1.elect[t].log <= c2.elect[t].log;
    }
  }

  lemma CrownGrows(c: State, v: nat, conf: LogEntry)
    requires Inv(c) && v < |c.servers| && c.servers[v].term !in c.elect
    ensures HistoryGrows(c, Crown(c, v, conf))
  {
    var t := c.servers[v].term;
    assert (t, v) in c.acc ==> AccOk(c, t, v);
  }

  lemma StoreGrows(c: State, v: nat, e: LogEntry)
    requires ServersOk(c) && AcceptedOk(c) && v < |c.servers| && c.servers[v].role == Leader
    ensures HistoryGrows(c, LeaderStore(c, v, e))
  {
    var t := c.servers[v].term;
    assert LogOk(c, v);
    assert (t, v) in c.acc ==> AccOk(c, t, v);
  }

  lemma StartVoteGrows(c: State, v: nat, conf: LogEntry)
    requires Inv(c) && v < |c.servers|
    ensures HistoryGrows(c, CrownIfElected(Stand(c, v), v, conf))
  {
    var c1 := Stand(c, v);
    StandInv(c, v);
    if Elected(c1.servers[v]) {
      FirstLeader(c, c1, v);
      CrownGrows(c1, v, conf);
    }
  }

  lemma VoteRespGrows(c: State, r: VoteResp, conf: LogEntry)
    requires Inv(c) && r in c.voteResps && r.dst < |c.servers| && (r.dst, r.src, r.reqTerm) !in c.answered
    ensures HistoryGrows(c, TakeVoteResp(c, r, conf))
  {
    hide Inv, Crown, UpdateTerm;
    if CountsVote(c.servers[r.dst], r) {
      var c1 := TakeVote(c, r);
      TakeVoteInv(c, r);
      if Elected(c1.servers[r.dst]) {
        FirstLeader(c, c1, r.dst);
        CrownGrows(c1, r.dst, conf);
        GrowsTransitive(c, c1, Crown(c1, r.dst, conf));
      }
    }
  }

  lemma RecordGrows(c: State, m: AppendReq, s: Server, r: Option<AppendResp>)
    requires m.dst < |c.servers|
    ensures HistoryGrows(c, RecordAppend(c, m, s, r))
  {
  }

  lemma AppendReqGrows(c: State, m: AppendReq, declined: bool, stop: Option<nat>)
    requires m.dst < |c.servers|
    ensures HistoryGrows(c, AnswerAppend(BumpTerm(c, m.dst, m.term), m, declined, stop))
  {
    var c1 := BumpTerm(c, m.dst, m.term);
    var (s, r) := HandleAppend(c1.servers[m.dst], m, declined, stop);
    RecordGrows(c1, m, s, r);
  }

  lemma OtherStepGrows(c: State, a: Action)
    requires Enabled(c, a)
    requires !a.StartVote? && !a.DeliverVoteResp? && !a.ClientStore? && !a.DeliverAppendReq?
    ensures HistoryGrows(c, Step(c, a))
  {
  }

  lemma StepGrows(c: State, a: Action)
    requires Inv(c) && Enabled(c, a)
    ensures HistoryGrows(c, Step(c, a))
  {
    match a
    case StartVote(v, conf) => StartVoteGrows(c, v, conf);
    case DeliverVoteResp(r, conf) => VoteRespGrows(c, r, conf);
    case ClientStore(v, e, ts) => StoreGrows(c, v, Stamped(e, c.servers[v].term, ts));
    case DeliverAppendReq(m, declined, stop) => AppendReqGrows(c, m, declined, stop);
    case _ => OtherStepGrows(c, a);
  }

  lemma {:induction false} RunGrows(states: seq<State>, actions: seq<Action>, i: nat, j: nat)
    requires IsRun(states, actions) && i <= j < |states| && Inv(states[0])
    ensures HistoryGrows(states[i], states[j])
    decreases j
  {
    hide Inv, Step, Enabled;
    if i < j {
      RunGrows(states, actions, i, j - 1);
      RunInv(states, actions, j - 1);
      assert Follows(states, actions, j - 1);
      StepGrows(states[j - 1], actions[j - 1]);
      GrowsTransitive(states[i], states[j - 1], states[j]);
    }
  }

  lemma ReachInv(n: nat, c: State, c': State)
    requires Reaches(n, c, c')
    ensures Inv(c) && Inv(c') && HistoryGrows(c, c')
  {
    hide Inv, Init, HistoryGrows;
    var states: seq<State>, actions: seq<Action>, i: nat :|
      && IsRun(states, actions) && states[0] == Init(n)
      && i < |states| && states[i] == c && states[|states| - 1] == c';
    InitInv(n);
    RunInv(states, actions, i);
    RunInv(states, actions, |states| - 1);
    RunGrows(states, actions, i, |states| - 1);
  }

  // ----- section 5.2: election safety

  /** At any two moments of a run, two leaders of the same term are the same server. */
  lemma ElectionSafety(n: nat, c: State, c': State, v: nat, w: nat)
    requires Reaches(n, c, c')
    requires v < |c.servers| && w < |c'.servers|
    requires c.servers[v].role == Leader && c'.servers[w].role == Leader
    requires c.servers[v].term == c'.servers[w].term
    ensures v == w
  {
    hide Reaches;
    ReachInv(n, c, c');
    assert LogOk(c, v) && LogOk(c', w);
  }

  /** `votes_granted_` counts distinct servers whose saved vote for this term names this server. */
  lemma CounterCountsVoters(n: nat, c: State, v: nat)
    requires Reaches(n, c, c) && v < |c.servers|
    ensures |c.granted[v]| == c.servers[v].votesGranted
    ensures forall g :: g in c.granted[v] ==>
      && g < |c.servers|
      && VotedFor(c, g, c.servers[v].term, v)
      && (c.servers[g].term == c.servers[v].term ==> c.servers[g].votedFor == v)
      && c.servers[g].term >= c.servers[v].term
  {
    hide Reaches;
    ReachInv(n, c, c);
    assert BallotOk(c, v);
    forall g | g in c.granted[v]
      ensures g < |c.servers| && VotedFor(c, g, c.servers[v].term, v)
      ensures c.servers[g].term == c.servers[v].term ==> c.servers[g].votedFor == v
      ensures c.servers[g].term >= c.servers[v].term
    {
      assert Counted(c, v, g) && BallotOk(c, g) && VoteOk(c, g, c.servers[v].term);
    }
  }

  // ----- section 5.3: log matching

  lemma TermsSorted(log: Log, c: State, i: nat, j: nat)
    requires Genuine(log, c.elect) && ReignsOk(c) && i <= j < |log|
    ensures log[i].term <= log[j].term
  {
    assert GenuineAt(log, j, c.elect);
    assert ReignOk(c, log[j].term);
    assert log[i] == log[..j + 1][i] == c.elect[log[j].term].log[i];
  }

  /** Two logs with the same term at the same index are identical up to that index. */
  lemma LogMatching(n: nat, c: State, v: nat, w: nat, i: nat)
    requires Reaches(n, c, c) && v < |c.servers| && w < |c.servers|
    requires i < |c.servers[v].log| && i < |c.servers[w].log|
    requires c.servers[v].log[i].term == c.servers[w].log[i].term
    ensures c.servers[v].log[..i + 1] == c.servers[w].log[..i + 1]
  {
    hide Reaches;
    ReachInv(n, c, c);
    assert LogOk(c, v) && LogOk(c, w);
    SameTermSamePrefix(c.servers[v].log, c.servers[w].log, c.elect, i);
  }

  /** Terms are positive, never decrease along a log and never exceed the server's own. */
  lemma LogTermsOrdered(n: nat, c: State, v: nat, i: nat, j: nat)
    requires Reaches(n, c, c) && v < |c.servers| && i <= j < |c.servers[v].log|
    ensures 1 <= c.servers[v].log[i].term <= c.servers[v].log[j].term <= c.servers[v].term
  {
    hide Reaches;
    ReachInv(n, c, c);
    var log := c.servers[v].log;
    assert LogOk(c, v) && GenuineAt(log, i, c.elect) && ReignOk(c, log[i].term);
    TermsSorted(log, c, i, j);
  }

  // ----- section 5.4: leader completeness

  /** A majority, possibly with the leader, accepted in term t the leader's own-term entry at index k. */
  ghost predicate Committed(c: State, t: nat, k: nat, quorum: set<nat>) {
    && t in c.elect
    && 1 <= k <= |c.elect[t].log|
    && c.elect[t].log[k - 1].term == t
    && Majority(quorum, Ids(|c.servers|))
    && forall v :: v in quorum ==> (t, v) in c.acc && k <= c.acc[(t, v)]
  }

  /** A reign's log is the log of the server that leads the term. */
  lemma ReignIsLeaderLog(n: nat, c: State, v: nat)
    requires Reaches(n, c, c) && v < |c.servers| && c.servers[v].role == Leader
    ensures c.servers[v].term in c.elect
    ensures c.elect[c.servers[v].term].leader == v && c.elect[c.servers[v].term].log == c.servers[v].log
  {
    hide Reaches;
    ReachInv(n, c, c);
    assert LogOk(c, v);
  }

  /** While a server stays in a term, its log holds everything it accepted in that term. */
  lemma AcceptedIsStored(n: nat, c: State, v: nat, t: nat)
    requires Reaches(n, c, c) && v < |c.servers| && (t, v) in c.acc && c.servers[v].term == t
    ensures t in c.elect && c.acc[(t, v)] <= |c.elect[t].log|
    ensures c.elect[t].log[..c.acc[(t, v)]] <= c.servers[v].log
  {
    hide Reaches;
    ReachInv(n, c, c);
    assert AccOk(c, t, v);
    assert Holds(c.elect, t, c.acc[(t, v)], c.servers[v].log, t + 1);
  }

  lemma CommittedStays(c: State, c': State, t: nat, k: nat, quorum: set<nat>)
    requires HistoryGrows(c, c') && Committed(c, t, k, quorum)
    ensures Committed(c', t, k, quorum) && c'.elect[t].log[..k] == c.elect[t].log[..k]
  {
    assert c.elect[t].log <= c'.elect[t].log;
  }

  /** The log a voter compared with the candidate's still had the committed prefix. */
  lemma VoterHadIt(c: State, t: nat, k: nat, quorum: set<nat>, u: nat) returns (v: nat)
    requires Inv(c) && Committed(c, t, k, quorum) && u in c.elect && t < u
    requires forall w :: w in c.elect && t < w < u ==> c.elect[t].log[..k] <= c.elect[w].base
    ensures v in c.elect[u].voters && (v, u) in c.votes
    ensures c.elect[t].log[..k] <= c.votes[(v, u)].log
  {
    assert ReignOk(c, u);
    v := SetsMeet(c.elect[u].voters, quorum, Ids(|c.servers|));
    assert VoterOk(c, v, u);
    assert VoteLogOk(c, v, u);
    assert Holds(c.elect, t, k, c.votes[(v, u)].log, u);
  }

  /** Of two prefixes of one log, the one that ends in a newer term is the longer. */
  lemma NewerPrefixLonger(x: Log, base: Log, lead: Log, t: nat)
    requires x <= lead && base <= lead && Bounded(x, t) && LastTerm(base) > t
    ensures x <= base
  {
    assert |base| <= |x| ==> base <= x;
  }

  lemma BaseOfReign(c: State, u: nat)
    requires ReignsOk(c) && u in c.elect && c.elect[u].base != []
    ensures LastTerm(c.elect[u].base) in c.elect && LastTerm(c.elect[u].base) < u
    ensures c.elect[u].base <= c.elect[LastTerm(c.elect[u].base)].log
  {
    var e := c.elect[u];
    assert ReignOk(c, u);
    assert GenuineAt(e.log, |e.base| - 1, c.elect);
    assert e.base == e.log[..|e.base|];
  }

  /** A log at least as new as one with the committed prefix has that prefix too. */
  lemma NewerLogHasIt(c: State, t: nat, k: nat, u: nat, voter: Log)
    requires ReignsOk(c) && t in c.elect && 1 <= k <= |c.elect[t].log| && c.elect[t].log[k - 1].term == t
    requires u in c.elect && t < u
    requires forall w :: w in c.elect && t < w < u ==> c.elect[t].log[..k] <= c.elect[w].base
    requires Genuine(voter, c.elect) && c.elect[t].log[..k] <= voter && NoNewer(c.elect[u].base, voter)
    ensures c.elect[t].log[..k] <= c.elect[u].base
  {
    var (base, x) := (c.elect[u].base, c.elect[t].log[..k]);
    assert ReignOk(c, t) && x[k - 1] == voter[k - 1];
    TermsSorted(voter, c, k - 1, |voter| - 1);
    assert LastTerm(voter) >= t;
    BaseOfReign(c, u);
    var last := LastTerm(base);
    if last == t {
      assert x == c.elect[t].log[..k] && |base| >= k;
    } else {
      assert ReignOk(c, last) && x <= c.elect[last].base;
      NewerPrefixLonger(x, base, c.elect[last].log, t);
    }
  }

  lemma {:induction false} LaterBaseHasIt(c: State, t: nat, k: nat, quorum: set<nat>, u: nat)
    requires Inv(c) && Committed(c, t, k, quorum) && u in c.elect && t < u
    ensures c.elect[t].log[..k] <= c.elect[u].base
    decreases u
  {
    forall w | w in c.elect && t < w < u ensures c.elect[t].log[..k] <= c.elect[w].base {
      LaterBaseHasIt(c, t, k, quorum, w);
    }
    var v := VoterHadIt(c, t, k, quorum, u);
    assert ReignOk(c, u) && VoterOk(c, v, u) && VoteOk(c, v, u);
    NewerLogHasIt(c, t, k, u, c.votes[(v, u)].log);
  }

  /** Once committed in term t, index k and all before it are in the log of every leader of a later term. */
  lemma LeaderCompleteness(n: nat, c: State, c': State, t: nat, k: nat, quorum: set<nat>, v: nat)
    requires v < |c'.servers| && c'.servers[v].role == Leader && c'.servers[v].term > t
    requires Committed(c, t, k, quorum)
    requires Reaches(n, c, c')
    ensures c.elect[t].log[..k] <= c'.servers[v].log
  {
    hide Reaches;
    ReachInv(n, c, c');
    CommittedStays(c, c', t, k, quorum);
    assert LogOk(c', v);
    var u := c'.servers[v].term;
    assert ReignOk(c', u);
    LaterBaseHasIt(c', t, k, quorum, u);
  }

  ghost predicate Comparable(a: Log, b: Log) { a <= b || b <= a }

  lemma CommittedComparable(c: State, t: nat, k: nat, q: set<nat>, t': nat, k': nat, q': set<nat>)
    requires Inv(c) && Committed(c, t, k, q) && Committed(c, t', k', q') && t <= t'
    ensures Comparable(c.elect[t].log[..k], c.elect[t'].log[..k'])
  {
    if t < t' {
      assert ReignOk(c, t');
      LaterBaseHasIt(c, t, k, q, t');
    }
  }

  /** Two committed prefixes are comparable, whenever and by whomever they were committed. */
  lemma Agreement(n: nat, c: State, c': State, t: nat, k: nat, q: set<nat>, t': nat, k': nat, q': set<nat>)
    requires Reaches(n, c, c') && Committed(c, t, k, q) && Committed(c', t', k', q')
    ensures Comparable(c.elect[t].log[..k], c'.elect[t'].log[..k'])
  {
    hide Reaches;
    ReachInv(n, c, c');
    CommittedStays(c, c', t, k, q);
    if t <= t' {
      CommittedComparable(c', t, k, q, t', k', q');
    } else {
      CommittedComparable(c', t', k', q', t, k, q);
    }
  }
}
