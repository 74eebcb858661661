/**
 Section 5.4.3 of the Raft paper for the commit indexes the servers keep: if a commit index is
 raised from responses only on evidence of the current term, then what two servers consider
 committed never differs.
 */
module CommitSafety {
  import opened Basics
  import opened LogEntries
  import opened Quorums
  import opened Raft
  import opened Cluster
  import opened ClusterInv
  import opened ClusterSteps
  import opened ClusterTheorems
  import opened ClusterLead
  import opened Acks

  /** Part of a prefix that a majority accepted in its leader's own term, which is at most `term`. */
  ghost predicate Safe(c: State, x: Log, term: nat) {
    x == [] ||
    exists t: nat, k: nat, q: set<nat> :: t <= term && Committed(c, t, k, q) && x <= c.elect[t].log[..k]
  }

  ghost predicate ServerSafe(c: State, s: Server) {
    s.quickCommit <= |s.log| && Safe(c, s.log[..s.quickCommit], s.term)
  }

  ghost predicate ReqSafe(c: State, m: AppendReq) {
    m.term in c.elect && m.commit <= |c.elect[m.term].log| && Safe(c, c.elect[m.term].log[..m.commit], m.term)
  }

  /** The log only grows, the term does not fall and the commit index does not rise. */
  predicate Keeps(s: Server, s': Server) {
    s.log <= s'.log && s.term <= s'.term && s'.quickCommit <= s.quickCommit
  }

  ghost predicate CommitInv(c: State) {
    && (forall v :: 0 <= v < |c.servers| ==> ServerSafe(c, c.servers[v]))
    && (forall m :: m in c.appReqs ==> ReqSafe(c, m))
  }

  // ----- what is safe stays safe

  lemma SafeStays(c: State, c': State, x: Log, y: Log, term: nat, term': nat)
    requires Safe(c, y, term) && HistoryGrows(c, c') && x <= y && term <= term'
    ensures Safe(c', x, term')
  {
    if x != [] {
      var t: nat, k: nat, q: set<nat> :| t <= term && Committed(c, t, k, q) && y <= c.elect[t].log[..k];
      CommittedStays(c, c', t, k, q);
      assert t <= term' && Committed(c', t, k, q) && x <= c'.elect[t].log[..k];
    }
  }

  lemma SafeComparable(c: State, c': State, x: Log, y: Log, term: nat, term': nat)
    requires Inv(c') && HistoryGrows(c, c') && Safe(c, x, term) && Safe(c', y, term')
    ensures Comparable(x, y)
  {
    hide Inv;
    if x != [] && y != [] {
      SafeStays(c, c', x, x, term, term);
      var t: nat, k: nat, q: set<nat> :| t <= term && Committed(c', t, k, q) && x <= c'.elect[t].log[..k];
      var t': nat, k': nat, q': set<nat> :| t' <= term' && Committed(c', t', k', q') && y <= c'.elect[t'].log[..k'];
      if t <= t' { CommittedComparable(c', t, k, q, t', k', q'); } else { CommittedComparable(c', t', k', q', t, k, q); }
    }
  }

  lemma ServerKeeps(c: State, c': State, s: Server, s': Server)
    requires ServerSafe(c, s) && HistoryGrows(c, c') && Keeps(s, s')
    ensures ServerSafe(c', s')
  {
    SafeStays(c, c', s'.log[..s'.quickCommit], s.log[..s.quickCommit], s.term, s'.term);
  }

  lemma ReqKeeps(c: State, c': State, m: AppendReq)
    requires ReqSafe(c, m) && HistoryGrows(c, c')
    ensures ReqSafe(c', m)
  {
    var x := c.elect[m.term].log[..m.commit];
    SafeStays(c, c', x, x, m.term, m.term);
    assert c.elect[m.term].log <= c'.elect[m.term].log;
    assert c'.elect[m.term].log[..m.commit] == x;
  }

  // ----- raises

  /** A single server's own entries are accepted by a majority. */
  lemma AloneSafe(c: State, v: nat)
    requires Inv(c) && LeadInv(c) && v < |c.servers| && c.servers[v].role == Leader && c.servers[v].peers == map[]
    ensures c.servers[v].precommit <= |c.servers[v].log|
    ensures Safe(c, c.servers[v].log[..c.servers[v].precommit], c.servers[v].term)
  {
    var s := c.servers[v];
    assert BallotOk(c, v) && LogOk(c, v) && LeadOk(c, v) && OwnTail(c.elect[s.term], s.term);
    assert Ids(|c.servers|) == {v} by {
      assert forall i: nat :: i in Ids(|c.servers|) ==> i in s.peers.Keys || i == v;
    }
    assert Majority({v}, Ids(|c.servers|));
    assert Committed(c, s.term, s.precommit, {v});
    assert s.log[..s.precommit] <= c.elect[s.term].log[..s.precommit];
  }

  lemma AckedSafe(c: State, v: nat, k: nat)
    requires Inv(c) && AckedQuorum(c, v, k)
    ensures Safe(c, c.servers[v].log[..k], c.servers[v].term)
  {
    AckedQuorumCommitted(c, v, k);
    assert LogOk(c, v);
    assert Committed(c, c.servers[v].term, k, Acked(c, c.servers[v], k));
  }

  /** Rollback lowers the commit index far enough for what stays committed to stay stored. */
  lemma WriteKeepsCommitted(s: Server, m: AppendReq, stopAfter: Option<nat>)
    requires s.quickCommit <= |s.log| && m.prevIdx <= |s.log|
    ensures var w := WriteEntries(s, m, stopAfter);
            && w.quickCommit <= s.quickCommit && w.quickCommit <= |w.log| && w.term == s.term
            && w.log[..w.quickCommit] == s.log[..w.quickCommit]
  {
    hide SkipCount;
    var n := Reached(s.log, m, stopAfter);
    var k := SkipCount(s.log, m.prevIdx, m.entries);
    SkipPrefix(s.log, m.prevIdx, m.entries, n);
    assert SkipCount(s.log, m.prevIdx, m.entries[..n]) == k;
  }

  /** An index is kept unless the entry after it is overwritten, and what it covers is kept in any case. */
  predicate RolledBack(log: Log, log': Log, idx: nat, idx': nat) {
    && idx' <= idx && idx' <= |log| && idx' <= |log'| && log'[..idx'] == log[..idx']
    && (idx' < idx ==> idx' < |log| && idx' < |log'| && log'[idx'].term != log[idx'].term)
  }

  /** Overwriting takes back commit index and applied index exactly as far as entries are replaced. */
  lemma WriteRollsBack(s: Server, m: AppendReq, stopAfter: Option<nat>)
    requires s.quickCommit <= |s.log| && s.smCommit <= |s.log| && m.prevIdx <= |s.log|
    ensures var w := WriteEntries(s, m, stopAfter);
            && RolledBack(s.log, w.log, s.quickCommit, w.quickCommit)
            && RolledBack(s.log, w.log, s.smCommit, w.smCommit)
  {
    hide SkipCount;
    var n := Reached(s.log, m, stopAfter);
    var k := SkipCount(s.log, m.prevIdx, m.entries);
    SkipPrefix(s.log, m.prevIdx, m.entries, n);
    assert SkipCount(s.log, m.prevIdx, m.entries[..n]) == k;
  }

  /** Log and commit index after an accepted request. */
  lemma AcceptedCommit(s: Server, m: AppendReq, stopAfter: Option<nat>)
    requires Accepts(s, m, false)
    ensures m.prevIdx <= |s.log|
    ensures var (s', w) := (HandleAppend(s, m, false, stopAfter).0, WriteEntries(s, m, stopAfter));
            && s'.log == w.log && s'.term == s.term
            && s'.quickCommit == if Stops(s.log, m, stopAfter) then w.quickCommit
                                 else Max(w.quickCommit, Min(m.commit, m.prevIdx + |m.entries|))
  {
    hide Merge, SkipCount;
  }

  lemma LeadSafe(c: State, c': State, m: AppendReq, log: Log)
    requires ReqSafe(c, m) && HistoryGrows(c, c')
    requires m.prevIdx + |m.entries| <= |c.elect[m.term].log|
    requires c.elect[m.term].log[..m.prevIdx + |m.entries|] <= log
    ensures var k := Min(m.commit, m.prevIdx + |m.entries|);
            k <= |log| && Safe(c', log[..k], m.term)
  {
    var (lead, k) := (c.elect[m.term].log, Min(m.commit, m.prevIdx + |m.entries|));
    assert log[..k] == lead[..k] <= lead[..m.commit];
    SafeStays(c, c', log[..k], lead[..m.commit], m.term, m.term);
  }

  lemma AcceptSafe(c: State, c': State, m: AppendReq, stopAfter: Option<nat>, s': Server)
    requires Inv(c) && CommitInv(c) && HistoryGrows(c, c') && m in c.appReqs && m.dst < |c.servers|
    requires Accepts(c.servers[m.dst], m, false) && s' == HandleAppend(c.servers[m.dst], m, false, stopAfter).0
    ensures ServerSafe(c', s')
  {
    hide Inv, WriteEntries, HandleAppend, Merged, Genuine, ClusterInv.Bounded, HistoryGrows, Safe;
    var s := c.servers[m.dst];
    assert ServerSafe(c, s) && ReqSafe(c, m);
    AcceptedCommit(s, m, stopAfter);
    AcceptLog(c, m, stopAfter);
    var w := WriteEntries(s, m, stopAfter);
    WriteKeepsCommitted(s, m, stopAfter);
    KeptSafe(c, c', s, w);
    if !Stops(s.log, m, stopAfter) {
      MergedHasLead(s.log, c.elect[m.term].log, w.log, m.prevIdx + |m.entries|);
      LeadSafe(c, c', m, w.log);
    }
  }

  lemma KeptSafe(c: State, c': State, s: Server, w: Server)
    requires ServerSafe(c, s) && HistoryGrows(c, c')
    requires w.quickCommit <= s.quickCommit && w.quickCommit <= |w.log|
    requires w.log[..w.quickCommit] == s.log[..w.quickCommit] && w.term == s.term
    ensures ServerSafe(c', w)
  {
    SafeStays(c, c', w.log[..w.quickCommit], s.log[..s.quickCommit], s.term, s.term);
  }

  lemma MergedHasLead(log: Log, lead: Log, log': Log, upTo: nat)
    requires upTo <= |lead| && Merged(log, lead, log', upTo)
    ensures lead[..upTo] <= log'
  {
  }

  // ----- every step

  /** A leader without peers commits what it has announced. */
  predicate CommitsAlone(s: Server, s': Server) {
    && s.log <= s'.log && s.term <= s'.term && s'.role == Leader && s'.peers == map[]
    && s'.quickCommit == Max(s.quickCommit, s'.precommit)
  }

  lemma CrownMove(c: State, v: nat, conf: LogEntry)
    requires v < |c.servers|
    ensures var (s, s') := (c.servers[v], Crown(c, v, conf).servers[v]);
            Keeps(s, s') || CommitsAlone(s, s')
  {
    var s := c.servers[v];
    assert s.log <= s.log + [OwnTermConf(s.term, conf)];
    var s' := Crown(c, v, conf).servers[v];
    assert s'.peers.Keys == s.peers.Keys;
    assert s'.peers == map[] <==> s'.peers.Keys == {};
  }

  lemma StartVoteMove(c: State, v: nat, conf: LogEntry)
    requires v < |c.servers|
    ensures var (s, s') := (c.servers[v], CrownIfElected(Stand(c, v), v, conf).servers[v]);
            Keeps(s, s') || CommitsAlone(s, s')
  {
    hide Crown;
    CrownMove(Stand(c, v), v, conf);
  }

  lemma VoteRespMove(c: State, r: VoteResp, conf: LogEntry)
    requires r.dst < |c.servers|
    ensures var (s, s') := (c.servers[r.dst], TakeVoteResp(c, r, conf).servers[r.dst]);
            Keeps(s, s') || CommitsAlone(s, s')
  {
    hide Crown;
    CrownMove(TakeVote(c, r), r.dst, conf);
  }

  lemma ClientDoneMove(s: Server, last: nat)
    requires s.role == Leader
    ensures var s' := CommitIfAlone(RaisePrecommit(s, last)); Keeps(s, s') || CommitsAlone(s, s')
  {
  }

  /**
   A raise from a response stays below an own entry that a majority has acknowledged in its term;
   what a restart brings back was committed.
   */
  ghost predicate Earned(c: State, a: Action)
    requires Enabled(c, a)
  {
    match a
    case DeliverAppendResp(r, committed) =>
      var s' := TakeAppendResp(c, r, committed).servers[r.dst];
      s'.quickCommit > c.servers[r.dst].quickCommit ==>
        exists k :: k >= s'.quickCommit && AckedQuorum(TakeAppendResp(c, r, committed), r.dst, k)
    case CrashRestart(v, lastCommit) => lastCommit <= c.servers[v].quickCommit
    case _ => true
  }

  lemma AppendRespMove(c: State, r: AppendResp, committed: nat)
    requires r.dst < |c.servers| && (r.accepted ==> 0 < r.next)
    ensures var (s, s') := (c.servers[r.dst], TakeAppendResp(c, r, committed).servers[r.dst]);
            s'.log == s.log && s.term <= s'.term
  {
  }

  /** A request that is not accepted changes neither log nor commit index. */
  lemma RejectMove(s: Server, m: AppendReq, declined: bool, stopAfter: Option<nat>)
    requires m.term <= s.term && !Accepts(s, m, declined)
    ensures Keeps(s, HandleAppend(s, m, declined, stopAfter).0)
  {
    hide WriteEntries;
  }

  lemma AppendReqSafe(c: State, m: AppendReq, declined: bool, stopAfter: Option<nat>)
    requires Inv(c) && CommitInv(c) && m in c.appReqs && m.dst < |c.servers|
    ensures var c' := AnswerAppend(BumpTerm(c, m.dst, m.term), m, declined, stopAfter);
            HistoryGrows(c, c') ==> ServerSafe(c', c'.servers[m.dst])
  {
    hide Inv, HandleAppend, ServerSafe, Accepts;
    var c1 := BumpTerm(c, m.dst, m.term);
    var c' := AnswerAppend(c1, m, declined, stopAfter);
    if HistoryGrows(c, c') {
      BumpInv(c, m.dst, m.term);
      BumpCommit(c, m.dst, m.term);
      var s := c1.servers[m.dst];
      if Accepts(s, m, declined) {
        NotDeclined(s, m, declined);
        AcceptSafe(c1, c', m, stopAfter, c'.servers[m.dst]);
      } else {
        RejectMove(s, m, declined, stopAfter);
        ServerKeeps(c1, c', s, c'.servers[m.dst]);
      }
    }
  }

  lemma NotDeclined(s: Server, m: AppendReq, declined: bool)
    requires Accepts(s, m, declined)
    ensures !declined
  {
  }

  lemma BumpCommit(c: State, v: nat, term: nat)
    requires CommitInv(c) && v < |c.servers|
    ensures CommitInv(BumpTerm(c, v, term)) && HistoryGrows(c, BumpTerm(c, v, term))
    ensures BumpTerm(c, v, term).elect == c.elect && BumpTerm(c, v, term).acc == c.acc
  {
    hide ServerSafe, ReqSafe;
    var c1 := BumpTerm(c, v, term);
    forall w | 0 <= w < |c1.servers| ensures ServerSafe(c1, c1.servers[w]) {
      ServerKeeps(c, c1, c.servers[w], c1.servers[w]);
    }
    forall m | m in c1.appReqs ensures ReqSafe(c1, m) { ReqKeeps(c, c1, m); }
  }

  /** A request carries its sender's commit index. */
  lemma SendSafe(c: State, v: nat, p: nat, k: nat)
    requires Inv(c) && CommitInv(c) && v < |c.servers| && CanSend(c.servers[v], p, k)
    ensures ReqSafe(c, BuildAppendReq(c.servers[v], p, k))
  {
    hide Inv;
    LeaderLog(c, v);
    assert ServerSafe(c, c.servers[v]);
  }

  lemma MoveSafe(c: State, c': State, v: nat)
    requires Inv(c') && LeadInv(c') && HistoryGrows(c, c') && v < |c.servers| && ServerSafe(c, c.servers[v])
    requires Keeps(c.servers[v], c'.servers[v]) || CommitsAlone(c.servers[v], c'.servers[v])
    ensures ServerSafe(c', c'.servers[v])
  {
    hide Inv, LeadInv;
    var (s, s') := (c.servers[v], c'.servers[v]);
    if s'.quickCommit <= s.quickCommit {
      ServerKeeps(c, c', s, s');
    } else {
      AloneSafe(c', v);
    }
  }

  lemma ActorSafe(c: State, a: Action)
    requires Inv(c) && LeadInv(c) && CommitInv(c) && Enabled(c, a) && Earned(c, a)
    requires Inv(Step(c, a)) && LeadInv(Step(c, a)) && HistoryGrows(c, Step(c, a))
    requires Actor(a) < |c.servers| && Actor(a) < |Step(c, a).servers|
    ensures ServerSafe(Step(c, a), Step(c, a).servers[Actor(a)])
  {
    hide Inv, LeadInv, HistoryGrows, ServerSafe, Crown, CrownIfElected, Stand, TakeVoteResp, TakeAppendResp, AnswerAppend,
         CommitIfAlone, Keeps, CommitsAlone, AckedQuorum;
    var (c', v) := (Step(c, a), Actor(a));
    assert ServerSafe(c, c.servers[v]);
    match a
    case StartVote(_, conf) => StartVoteMove(c, v, conf); MoveSafe(c, c', v);
    case DeliverVoteResp(r, conf) => VoteRespMove(c, r, conf); MoveSafe(c, c', v);
    case ClientDone(_, last) => ClientDoneMove(c.servers[v], last); MoveSafe(c, c', v);
    case DeliverAppendReq(m, declined, stop) => AppendReqSafe(c, m, declined, stop);
    case DeliverAppendResp(r, committed) =>
      AppendRespMove(c, r, committed);
      if c'.servers[v].quickCommit <= c.servers[v].quickCommit {
        ServerKeeps(c, c', c.servers[v], c'.servers[v]);
      } else {
        var k :| k >= c'.servers[v].quickCommit && AckedQuorum(c', v, k);
        AckedServerSafe(c', v, k);
      }
    case _ => OtherMove(c, a); ServerKeeps(c, c', c.servers[v], c'.servers[v]);
  }

  lemma AckedServerSafe(c: State, v: nat, k: nat)
    requires Inv(c) && AckedQuorum(c, v, k) && c.servers[v].quickCommit <= k
    ensures ServerSafe(c, c.servers[v])
  {
    hide Inv;
    var s := c.servers[v];
    AckedSafe(c, v, k);
    SameHistory(c);
    SafeStays(c, c, s.log[..s.quickCommit], s.log[..k], s.term, s.term);
  }

  lemma OtherMove(c: State, a: Action)
    requires Enabled(c, a) && Earned(c, a) && Actor(a) < |c.servers|
    requires a.DeliverVoteReq? || a.ClientStore? || a.Reconnect? || a.SendAppend? || a.StepDown? || a.PreVote? || a.CrashRestart?
    ensures |Step(c, a).servers| == |c.servers|
    ensures var (s, s') := (c.servers[Actor(a)], Step(c, a).servers[Actor(a)]);
            Keeps(s, s')
  {
    hide AckedQuorum, BuildAppendReq, Stamped, DecideVote, UpdateTerm;
    if a.DeliverVoteReq? { VoteReqMove(c.servers[a.vreq.dst], a.vreq, a.priorityOk); }
  }

  lemma VoteReqMove(s: Server, m: VoteReq, priorityOk: bool)
    ensures Keeps(s, UpdateTerm(s, m.term)) && Keeps(s, DecideVote(s, m, priorityOk).0)
    ensures Keeps(s, DecideVote(UpdateTerm(s, m.term), m, priorityOk).0)
  {
  }

  lemma NewReqSafe(c: State, a: Action, m: AppendReq)
    requires Inv(c) && CommitInv(c) && Enabled(c, a) && HistoryGrows(c, Step(c, a))
    requires m in Step(c, a).appReqs && m !in c.appReqs
    ensures ReqSafe(Step(c, a), m)
  {
    hide Inv, HistoryGrows, ReqSafe, HandleAppend, DecideVote, BecomeLeader, CommitInv;
    assert a.SendAppend?;
    SendSafe(c, a.v, a.peer, a.count);
    ReqKeeps(c, Step(c, a), m);
  }

  lemma StepCommitInv(c: State, a: Action)
    requires Inv(c) && LeadInv(c) && CommitInv(c) && Enabled(c, a) && Earned(c, a)
    ensures CommitInv(Step(c, a))
  {
    hide Inv, LeadInv, Step, Enabled, Earned, HistoryGrows, ServerSafe, ReqSafe;
    var c' := Step(c, a);
    StepInv(c, a);
    StepLeadInv(c, a);
    StepGrows(c, a);
    StepIsLeadStep(c, a);
    ActorSafe(c, a);
    forall v | 0 <= v < |c'.servers| ensures ServerSafe(c', c'.servers[v]) {
      if v != Actor(a) { ServerKeeps(c, c', c.servers[v], c'.servers[v]); }
    }
    forall m | m in c'.appReqs ensures ReqSafe(c', m) {
      if m in c.appReqs { ReqKeeps(c, c', m); } else { NewReqSafe(c, a, m); }
    }
  }

  // ----- every run

  /** Every raise of a commit index in this run is earned. */
  ghost predicate AllEarned(states: seq<State>, actions: seq<Action>)
    requires IsRun(states, actions)
  {
    forall i :: 0 <= i < |actions| ==> EarnedAt(states, actions, i)
  }

  ghost predicate EarnedAt(states: seq<State>, actions: seq<Action>, i: nat)
    requires i < |actions| && |states| == |actions| + 1
  {
    Enabled(states[i], actions[i]) && Earned(states[i], actions[i])
  }

  lemma InitCommit(n: nat)
    ensures CommitInv(Init(n))
  {
    forall v | 0 <= v < n ensures ServerSafe(Init(n), Init(n).servers[v]) {
      assert Init(n).servers[v] == Fresh(v, n);
    }
  }

  lemma {:induction false} RunCommitInv(n: nat, states: seq<State>, actions: seq<Action>, i: nat)
    requires IsRun(states, actions) && AllEarned(states, actions) && states[0] == Init(n) && i < |states|
    ensures Inv(states[i]) && LeadInv(states[i]) && CommitInv(states[i])
    decreases i
  {
    hide Inv, LeadInv, CommitInv, Step, Enabled, Earned, Init;
    if i == 0 {
      InitInv(n);
      InitLead(n);
      InitCommit(n);
    } else {
      RunCommitInv(n, states, actions, i - 1);
      assert Follows(states, actions, i - 1) && EarnedAt(states, actions, i - 1);
      StepInv(states[i - 1], actions[i - 1]);
      StepLeadInv(states[i - 1], actions[i - 1]);
      StepCommitInv(states[i - 1], actions[i - 1]);
    }
  }

  /**
   What any two servers consider committed, at any two moments of a run whose raises are earned,
   is comparable: one is a prefix of the other.
   */
  lemma CommitIndexesAgree(n: nat, states: seq<State>, actions: seq<Action>, i: nat, j: nat, v: nat, w: nat)
    requires IsRun(states, actions) && AllEarned(states, actions) && states[0] == Init(n) && i <= j < |states|
    requires v < |states[i].servers| && w < |states[j].servers|
    ensures var (s, s') := (states[i].servers[v], states[j].servers[w]);
            && s.quickCommit <= |s.log| && s'.quickCommit <= |s'.log|
            && Comparable(s.log[..s.quickCommit], s'.log[..s'.quickCommit])
  {
    hide Inv, LeadInv, IsRun, AllEarned, Init, Safe;
    RunCommitInv(n, states, actions, i);
    RunCommitInv(n, states, actions, j);
    RunCommitInv(n, states, actions, 0);
    RunGrows(states, actions, i, j);
    var (s, s') := (states[i].servers[v], states[j].servers[w]);
    assert ServerSafe(states[i], s) && ServerSafe(states[j], s');
    SafeComparable(states[i], states[j], s.log[..s.quickCommit], s'.log[..s'.quickCommit], s.term, s'.term);
  }

  // ----- the rollback of committed entries

  /** What is safe by a term is in the log of that term's leader and of every later one. */
  lemma SafeInLead(c: State, x: Log, term: nat)
    requires Inv(c) && Safe(c, x, term) && term in c.elect
    ensures x <= c.elect[term].log
  {
    hide Inv;
    if x != [] {
      var t: nat, k: nat, q: set<nat> :| t <= term && Committed(c, t, k, q) && x <= c.elect[t].log[..k];
      if t < term {
        LaterBaseHasIt(c, t, k, q, term);
        BaseInLog(c, term);
      }
    }
  }

  lemma BaseInLog(c: State, t: nat)
    requires Inv(c) && t in c.elect
    ensures c.elect[t].base <= c.elect[t].log
  {
    assert ReignOk(c, t);
  }

  /** A request that agrees with the committed part truncates only beyond it. */
  lemma TruncatesBeyond(s: Server, m: AppendReq, lead: Log)
    requires m.prevIdx <= |s.log| && m.prevIdx + |m.entries| <= |lead|
    requires m.entries == lead[m.prevIdx..m.prevIdx + |m.entries|]
    requires s.quickCommit <= |s.log| && s.log[..s.quickCommit] <= lead
    ensures RollbackCommit(s, m).quickCommit == s.quickCommit
    ensures s.smCommit <= s.quickCommit ==> RollbackCommit(s, m).smCommit == s.smCommit
  {
    hide SkipCount;
    var k := SkipCount(s.log, m.prevIdx, m.entries);
    var kept := s.log[..s.quickCommit];
    assert forall i :: 0 <= i < |kept| ==> s.log[i] == kept[i] == lead[i];
    assert k < |m.entries| ==> m.entries[k] == lead[m.prevIdx + k];
  }

  /**
   In a run whose raises are earned, no append request ever takes back a committed entry: the
   branch of the handler that lowers the commit index, and with it the applied index, is never taken.
   */
  lemma CommittedIsNeverRolledBack(n: nat, states: seq<State>, actions: seq<Action>, i: nat, m: AppendReq)
    requires IsRun(states, actions) && AllEarned(states, actions) && states[0] == Init(n) && i < |states|
    requires m in states[i].appReqs && m.dst < |states[i].servers|
    requires Accepts(UpdateTerm(states[i].servers[m.dst], m.term), m, false)
    ensures var s := UpdateTerm(states[i].servers[m.dst], m.term);
            && m.prevIdx <= |s.log| && s.quickCommit == states[i].servers[m.dst].quickCommit
            && RollbackCommit(s, m).quickCommit == s.quickCommit
            && (s.smCommit <= s.quickCommit ==> RollbackCommit(s, m).smCommit == s.smCommit)
  {
    hide IsRun, AllEarned, Init, LeadInv, Inv, RollbackCommit;
    RunCommitInv(n, states, actions, i);
    var c := states[i];
    var s := c.servers[m.dst];
    assert ServerSafe(c, s);
    SliceOfLead(c, m);
    var x := s.log[..s.quickCommit];
    SameHistory(c);
    SafeStays(c, c, x, x, s.term, m.term);
    SafeInLead(c, x, m.term);
    TruncatesBeyond(UpdateTerm(s, m.term), m, c.elect[m.term].log);
  }

  lemma SameHistory(c: State)
    ensures HistoryGrows(c, c)
  {
  }

  lemma SliceOfLead(c: State, m: AppendReq)
    requires Inv(c) && m in c.appReqs
    ensures m.term in c.elect && m.prevIdx + |m.entries| <= |c.elect[m.term].log|
    ensures m.entries == c.elect[m.term].log[m.prevIdx..m.prevIdx + |m.entries|]
  {
    assert AppReqOk(c, m);
  }
}
