/**
 Runs of five servers, put together from elections, replication rounds and client entries, and
 one in which an entry is acknowledged by a majority in its leader's term.
 */
module ClusterExample {
  import opened Basics
  import opened LogEntries
  import opened Quorums
  import opened Raft
  import opened Cluster
  import opened ClusterTheorems
  import opened Acks
  import opened CommitIndex
  import opened CommitRule
  import opened RaftServers
  import opened Refinement

  // ----- runs put together

  /** A response that is taken carries the index that the commit rule selects after it. */
  ghost predicate ByRule(c: State, a: Action) {
    a.DeliverAppendResp? && a.aresp.dst < |c.servers| && a.aresp.accepted && a.aresp.next > 0 ==>
      var (s, r) := (c.servers[a.aresp.dst], a.aresp);
      r.term <= s.term && r.src in s.peers ==> RuleValue(TakeAck(s, r), a.committed)
  }

  /** The leader's indexes after an acknowledgement. */
  function TakeAck(s: Server, r: AppendResp): Server
    requires r.next > 0
  {
    s.(peers := s.peers[r.src := Peer(r.next, r.next - 1)])
  }

  /** A response of a term that its receiver has left. */
  predicate IsStale(c: State, a: Action) {
    a.DeliverAppendResp? && a.aresp.dst < |c.servers| && a.aresp.term < c.servers[a.aresp.dst].term
  }

  ghost predicate RuleAt(states: seq<State>, actions: seq<Action>, i: nat, stale: bool)
    requires i < |actions| && |states| == |actions| + 1
  {
    ByRule(states[i], actions[i]) && (stale || !IsStale(states[i], actions[i]))
  }

  ghost predicate RuleRun(states: seq<State>, actions: seq<Action>, stale: bool) {
    IsRun(states, actions) && forall i :: 0 <= i < |actions| ==> RuleAt(states, actions, i, stale)
  }

  /** A run leads from c to c' in which commit indexes follow the rule; stale responses are taken only if allowed. */
  ghost predicate Path(c: State, c': State, stale: bool) {
    exists states: seq<State>, actions: seq<Action> ::
      RuleRun(states, actions, stale) && states[0] == c && states[|states| - 1] == c'
  }

  lemma OneStep(c: State, a: Action)
    requires Enabled(c, a) && ByRule(c, a)
    ensures Path(c, Step(c, a), IsStale(c, a))
  {
    hide ByRule;
    var states, actions := [c, Step(c, a)], [a];
    assert Follows(states, actions, 0) && RuleAt(states, actions, 0, IsStale(c, a));
    assert RuleRun(states, actions, IsStale(c, a));
  }

  lemma PathThen(c: State, c1: State, c2: State, stale: bool, stale': bool)
    requires Path(c, c1, stale) && Path(c1, c2, stale')
    ensures Path(c, c2, stale || stale')
  {
    hide Step, Enabled, RuleAt;
    var s, a :| RuleRun(s, a, stale) && s[0] == c && s[|s| - 1] == c1;
    var s', a' :| RuleRun(s', a', stale') && s'[0] == c1 && s'[|s'| - 1] == c2;
    RunThen(s, a, s', a', stale, stale');
  }

  lemma RunThen(s: seq<State>, a: seq<Action>, s': seq<State>, a': seq<Action>, stale: bool, stale': bool)
    requires RuleRun(s, a, stale) && RuleRun(s', a', stale') && s[|s| - 1] == s'[0]
    ensures RuleRun(s + s'[1..], a + a', stale || stale')
  {
    hide Step, Enabled, ByRule, IsStale;
    var states, actions := s + s'[1..], a + a';
    var either := stale || stale';
    forall i | 0 <= i < |actions| ensures Follows(states, actions, i) {
      if i < |a| {
        assert Follows(s, a, i);
      } else {
        assert Follows(s', a', i - |a|);
      }
    }
    forall i | 0 <= i < |actions| ensures RuleAt(states, actions, i, either) {
      if i < |a| {
        assert RuleAt(s, a, i, stale);
      } else {
        assert RuleAt(s', a', i - |a|, stale');
      }
    }
  }

  lemma PathReaches(n: nat, c: State, c': State, stale: bool, stale': bool)
    requires Path(Init(n), c, stale) && Path(c, c', stale')
    ensures Reaches(n, c, c')
  {
    hide Step, Enabled, Init, RuleAt;
    var s, a :| RuleRun(s, a, stale) && s[0] == Init(n) && s[|s| - 1] == c;
    var s', a' :| RuleRun(s', a', stale') && s'[0] == c && s'[|s'| - 1] == c';
    RunThen(s, a, s', a', stale, stale');
    var states := s + s'[1..];
    assert IsRun(states, a + a') && states[0] == Init(n) && states[|s| - 1] == c && states[|states| - 1] == c';
  }

  lemma NoSteps(c: State)
    ensures Path(c, c, false)
  {
    assert RuleRun([c], [], false);
  }

  // ----- one step each

  /** Responses to append requests stay on the network. */
  predicate Kept(c: State, c': State) {
    |c'.servers| == |c.servers| && c.appResps <= c'.appResps
  }

  /** Server v of five knows the other four. */
  predicate OfFive(s: Server, v: nat) {
    s.id == v && |s.peers| == 4 && v !in s.peers && forall p: nat :: p < 5 && p != v ==> p in s.peers
  }

  predicate Five(c: State) {
    |c.servers| == 5 && forall v: nat :: v < 5 ==> OfFive(c.servers[v], v)
  }

  lemma Stands(c: State, v: nat, conf: LogEntry) returns (c': State)
    requires Five(c) && v < 5
    ensures Path(c, c', false) && Kept(c, c') && c'.answered == c.answered
    ensures c'.servers == c.servers[v := Candidacy(c.servers[v])]
    ensures forall p :: p in c.servers[v].peers ==> Ballot(c'.servers[v], p) in c'.voteReqs
  {
    OneStep(c, StartVote(v, conf));
    c' := Step(c, StartVote(v, conf));
  }

  lemma Grant(c: State, m: VoteReq) returns (c': State)
    requires Five(c) && m in c.voteReqs && m.dst < 5
    requires c.servers[m.dst].term < m.term && UpToDate(m.lastTerm, m.lastIdx, c.servers[m.dst].log)
    ensures Path(c, c', false) && Kept(c, c') && c'.answered == c.answered && c'.voteReqs == c.voteReqs
    ensures c'.servers == c.servers[m.dst := UpdateTerm(c.servers[m.dst], m.term).(votedFor := m.src)]
    ensures c'.voteResps == c.voteResps + {VoteResp(m.dst, m.src, m.term, m.term, true)}
  {
    OneStep(c, DeliverVoteReq(m, true));
    c' := Step(c, DeliverVoteReq(m, true));
  }

  /** A vote that is counted, and makes the candidate a leader if it is the third. */
  lemma Counted(c: State, r: VoteResp, conf: LogEntry) returns (c': State)
    requires Five(c) && r in c.voteResps && r.dst < 5 && r.accepted && (r.dst, r.src, r.reqTerm) !in c.answered
    requires CountsVote(c.servers[r.dst], r)
    ensures Path(c, c', false) && Kept(c, c') && c'.answered == c.answered + {(r.dst, r.src, r.reqTerm)}
    ensures c'.voteResps == c.voteResps
    ensures var s := CountVote(c.servers[r.dst], r);
            c'.servers == c.servers[r.dst := if s.votesGranted < 3 then s
                                             else BecomeLeader(s.(electionCompleted := true), conf)]
  {
    OneStep(c, DeliverVoteResp(r, conf));
    c' := Step(c, DeliverVoteResp(r, conf));
  }

  // ----- several steps

  predicate Is(s: Server, term: nat, role: Role, log: Log, quick: nat) {
    s.term == term && s.role == role && s.log == log && s.quickCommit == quick
  }

  /** The server after two peers have answered its candidacy with a vote. */
  function Won(s: Server, conf: LogEntry): Server {
    BecomeLeader(Candidacy(s).(votesGranted := 3, votesResponded := 3, electionCompleted := true), conf)
  }

  lemma WonShape(s: Server, conf: LogEntry)
    requires |s.peers| == 4
    ensures Is(Won(s, conf), s.term + 1, Leader, s.log + [OwnTermConf(s.term + 1, conf)], s.quickCommit)
    ensures Won(s, conf).id == s.id && Won(s, conf).precommit == |s.log| + 1
    ensures |Won(s, conf).peers| == 4 && Won(s, conf).peers.Keys == s.peers.Keys
    ensures forall p :: p in s.peers ==> Won(s, conf).peers[p] == s.peers[p].(next := |s.log| + 1)
  {
    var peers := map p | p in s.peers :: s.peers[p].(next := |s.log| + 1);
    assert peers.Keys == s.peers.Keys;
    assert |peers| == |peers.Keys| == |s.peers.Keys| == |s.peers|;
    assert Won(s, conf).peers == peers;
  }

  /** The server after granting `src` its vote in a later term. */
  function Voted(s: Server, term: nat, src: nat): Server {
    UpdateTerm(s, term).(votedFor := src)
  }

  predicate Willing(s: Server, cand: Server) {
    s.term <= cand.term && UpToDate(LastTerm(cand.log), |cand.log|, s.log)
  }

  lemma VotedShape(s: Server, cand: Server)
    requires Willing(s, cand)
    ensures var s' := Voted(s, cand.term + 1, cand.id);
            Is(s', cand.term + 1, Follower, s.log, s.quickCommit) && s'.id == s.id && s'.peers == s.peers
  {
  }

  predicate AnsweredUpTo(c: State, term: nat) {
    forall x :: x in c.answered ==> x.2 <= term
  }

  /** A candidate gets the answers of two willing voters onto the network. */
  lemma Canvass(c: State, v: nat, w1: nat, w2: nat, conf: LogEntry) returns (c': State)
    requires Five(c) && v < 5 && w1 < 5 && w2 < 5 && v != w1 && v != w2 && w1 != w2
    requires Willing(c.servers[w1], c.servers[v]) && Willing(c.servers[w2], c.servers[v])
    ensures Path(c, c', false) && Kept(c, c') && c'.answered == c.answered
    ensures var t := c.servers[v].term + 1;
            && c'.servers == c.servers[v := Candidacy(c.servers[v])]
                                      [w1 := Voted(c.servers[w1], t, v)][w2 := Voted(c.servers[w2], t, v)]
            && VoteResp(w1, v, t, t, true) in c'.voteResps && VoteResp(w2, v, t, t, true) in c'.voteResps
  {
    hide Path;
    var c1 := Stands(c, v, conf);
    var c2 := Grant(c1, Ballot(c1.servers[v], w1));
    c' := Grant(c2, Ballot(c1.servers[v], w2));
    PathThen(c, c1, c2, false, false);
    PathThen(c, c2, c', false, false);
  }

  /** Two willing voters make any of five servers a leader. */
  lemma Election(c: State, v: nat, w1: nat, w2: nat, conf: LogEntry) returns (c': State)
    requires Five(c) && v < 5 && w1 < 5 && w2 < 5 && v != w1 && v != w2 && w1 != w2
    requires Willing(c.servers[w1], c.servers[v]) && Willing(c.servers[w2], c.servers[v])
    requires AnsweredUpTo(c, c.servers[v].term)
    ensures Path(c, c', false) && Kept(c, c') && Five(c') && AnsweredUpTo(c', c.servers[v].term + 1)
    ensures var t := c.servers[v].term + 1;
            c'.servers == c.servers[w1 := Voted(c.servers[w1], t, v)][w2 := Voted(c.servers[w2], t, v)]
                                   [v := Won(c.servers[v], conf)]
  {
    hide Path, BecomeLeader, Voted, Willing;
    var t := c.servers[v].term + 1;
    WonShape(c.servers[v], conf);
    VotedShape(c.servers[w1], c.servers[v]);
    VotedShape(c.servers[w2], c.servers[v]);
    var c1 := Canvass(c, v, w1, w2, conf);
    var c2 := Counted(c1, VoteResp(w1, v, t, t, true), conf);
    c' := Counted(c2, VoteResp(w2, v, t, t, true), conf);
    PathThen(c, c1, c2, false, false);
    PathThen(c, c2, c', false, false);
  }

  lemma Replicate(c: State, v: nat, w: nat, count: nat) returns (c': State)
    requires Five(c) && v < 5 && w < 5 && v != w && CanSend(c.servers[v], w, count)
    requires c.servers[w].term < c.servers[v].term || (c.servers[w].term == c.servers[v].term && c.servers[w].role != Leader)
    requires var prev := NextFor(c.servers[v], w) - 1;
             LogOkay(c.servers[w].log, prev, TermAt(c.servers[v].log, prev))
    ensures Path(c, c', false) && Kept(c, c') && Five(c') && c'.answered == c.answered
    ensures var (l, f) := (c.servers[v], c.servers[w]);
            var prev := NextFor(l, w) - 1;
            && prev <= |f.log|
            && c'.servers == c.servers[v := SetNext(l, w, prev + 1)][w := c'.servers[w]]
            && c'.servers[w].term == l.term && c'.servers[w].role == Follower && c'.servers[w].peers == f.peers
            && c'.servers[w].log == Merge(f.log, prev, l.log[prev..prev + count])
            && (l.quickCommit == f.quickCommit == 0 ==> c'.servers[w].quickCommit == 0)
            && AppendResp(w, v, l.term, prev + count + 1, true, false) in c'.appResps
  {
    hide Path, LogOkay, Accepts, Merge, TermAt, UpdateTerm;
    var (l, f) := (c.servers[v], c.servers[w]);
    var prev := NextFor(l, w) - 1;
    var m := BuildAppendReq(l, w, count);
    assert m == AppendReq(v, w, l.term, prev, TermAt(l.log, prev), l.log[prev..prev + count], l.quickCommit);
    var c1 := Sent(c, v, w, count);
    assert c1.servers[w] == f;
    Acceptable(f, m);
    c' := Accepted(c1, m);
    PathThen(c, c1, c', false, false);
  }

  lemma Acceptable(s: Server, m: AppendReq)
    requires s.term < m.term || (s.term == m.term && s.role != Leader)
    requires LogOkay(s.log, m.prevIdx, m.prevTerm)
    ensures Accepts(UpdateTerm(s, m.term), m, false)
  {
  }

  lemma Sent(c: State, v: nat, w: nat, count: nat) returns (c': State)
    requires Five(c) && v < 5 && CanSend(c.servers[v], w, count)
    ensures Path(c, c', false) && Kept(c, c') && Five(c') && c'.answered == c.answered
    ensures c'.servers == c.servers[v := SetNext(c.servers[v], w, NextFor(c.servers[v], w))]
    ensures BuildAppendReq(c.servers[v], w, count) in c'.appReqs
  {
    OneStep(c, SendAppend(v, w, count));
    c' := Step(c, SendAppend(v, w, count));
    var s := c.servers[v];
    assert SetNext(s, w, NextFor(s, w)).peers.Keys == s.peers.Keys;
    assert |s.peers| == |s.peers.Keys|;
  }

  lemma Accepted(c: State, m: AppendReq) returns (c': State)
    requires Five(c) && m in c.appReqs && m.dst < 5 && Accepts(UpdateTerm(c.servers[m.dst], m.term), m, false)
    ensures Path(c, c', false) && Kept(c, c') && Five(c') && c'.answered == c.answered
    ensures m.prevIdx <= |c.servers[m.dst].log|
    ensures c'.servers == c.servers[m.dst := c'.servers[m.dst]]
    ensures var (s, s') := (c.servers[m.dst], c'.servers[m.dst]);
            && s'.term == m.term && s'.role == Follower && s'.peers == s.peers
            && s'.log == Merge(s.log, m.prevIdx, m.entries)
            && (m.commit == s.quickCommit == 0 ==> s'.quickCommit == 0)
    ensures AppendResp(m.dst, m.src, m.term, m.prevIdx + |m.entries| + 1, true, false) in c'.appResps
  {
    hide HandleAppend, Merge;
    OneStep(c, DeliverAppendReq(m, false, None));
    c' := Step(c, DeliverAppendReq(m, false, None));
    AppendReqIsStep(c, m, false, None);
    AcceptedMerge(UpdateTerm(c.servers[m.dst], m.term), m);
  }

  lemma AcceptedMerge(s: Server, m: AppendReq)
    requires Accepts(s, m, false)
    ensures m.prevIdx <= |s.log|
    ensures var (s', r) := HandleAppend(s, m, false, None);
            && s'.term == s.term && s'.role == Follower && s'.peers == s.peers && s'.id == s.id
            && s'.log == Merge(s.log, m.prevIdx, m.entries)
            && (m.commit == s.quickCommit == 0 ==> s'.quickCommit == 0)
            && r == Some(AppendResp(s.id, m.src, s.term, m.prevIdx + |m.entries| + 1, true, false))
  {
    assert m.entries[..|m.entries|] == m.entries;
  }

  /** A leader stores an entry for a client and is done with it. */
  lemma ClientEntry(c: State, v: nat, e: LogEntry) returns (c': State)
    requires Five(c) && v < 5 && c.servers[v].role == Leader
    ensures Path(c, c', false) && Kept(c, c') && Five(c') && c'.answered == c.answered
    ensures var s := c.servers[v];
            c'.servers == c.servers[v := s.(log := s.log + [Stamped(e, s.term, 0)], precommit := Max(s.precommit, |s.log| + 1))]
  {
    hide Path;
    var c1 := Step(c, ClientStore(v, e, 0));
    OneStep(c, ClientStore(v, e, 0));
    var last := |c1.servers[v].log|;
    OneStep(c1, ClientDone(v, last));
    c' := Step(c1, ClientDone(v, last));
    PathThen(c, c1, c', false, false);
  }

  /** An acknowledgement is taken, and the commit index is raised as the rule says. */
  lemma Acknowledged(c: State, r: AppendResp, committed: nat) returns (c': State)
    requires Five(c) && r in c.appResps && r.dst < 5 && r.accepted && 0 < r.next
    requires r.term <= c.servers[r.dst].term && r.src in c.servers[r.dst].peers
    requires RuleValue(TakeAck(c.servers[r.dst], r), committed)
    ensures Path(c, c', r.term < c.servers[r.dst].term) && Kept(c, c') && Five(c') && c'.answered == c.answered
    ensures c'.servers == c.servers[r.dst := Commit(TakeAck(c.servers[r.dst], r), committed)]
  {
    hide RuleValue;
    OneStep(c, DeliverAppendResp(r, committed));
    c' := Step(c, DeliverAppendResp(r, committed));
    assert c'.servers[r.dst].peers.Keys == c.servers[r.dst].peers.Keys;
    assert |c'.servers[r.dst].peers| == |c.servers[r.dst].peers.Keys|;
  }

  /** A request that fits nowhere in an empty log is rejected, and the leader starts over at index 1. */
  lemma StartsOver(c: State, v: nat, w: nat) returns (c': State)
    requires Five(c) && v < 5 && w < 5 && v != w && CanSend(c.servers[v], w, 0) && c.servers[v].peers[w].next > 1
    requires Is(c.servers[w], c.servers[v].term, Follower, [], c.servers[w].quickCommit)
    ensures Path(c, c', false) && Kept(c, c') && Five(c') && c'.answered == c.answered
    ensures c'.servers == c.servers[v := SetNext(c.servers[v], w, 1)]
  {
    hide Path, TermAt;
    var (l, f) := (c.servers[v], c.servers[w]);
    var m := BuildAppendReq(l, w, 0);
    var c1 := Sent(c, v, w, 0);
    assert c1.servers[w] == f;
    var c2 := Denied(c1, m);
    PathThen(c, c1, c2, false, false);
    c' := Rejected(c2, AppendResp(w, v, l.term, 1, false, false));
    PathThen(c, c2, c', false, false);
    var peers := c1.servers[v].peers;
    assert peers[w := peers[w].(next := 1)] == l.peers[w := l.peers[w].(next := 1)];
  }

  lemma Denied(c: State, m: AppendReq) returns (c': State)
    requires Five(c) && m in c.appReqs && m.dst < 5 && m.prevIdx > 0
    requires c.servers[m.dst].term == m.term && c.servers[m.dst].role == Follower && c.servers[m.dst].log == []
    ensures Path(c, c', false) && Kept(c, c') && Five(c') && c'.answered == c.answered && c'.servers == c.servers
    ensures AppendResp(m.dst, m.src, m.term, 1, false, false) in c'.appResps
  {
    hide HandleAppend;
    OneStep(c, DeliverAppendReq(m, false, None));
    c' := Step(c, DeliverAppendReq(m, false, None));
    AppendReqIsStep(c, m, false, None);
    EmptyLogDenies(c.servers[m.dst], m);
    assert c.servers[m.dst := c.servers[m.dst]] == c.servers;
  }

  lemma EmptyLogDenies(s: Server, m: AppendReq)
    requires s.term == m.term && s.role == Follower && s.log == [] && m.prevIdx > 0
    ensures HandleAppend(s, m, false, None) == (s, Some(AppendResp(s.id, m.src, s.term, 1, false, false)))
  {
  }

  lemma Rejected(c: State, r: AppendResp) returns (c': State)
    requires Five(c) && r in c.appResps && r.dst < 5 && !r.accepted && r.term == c.servers[r.dst].term
    requires r.src in c.servers[r.dst].peers && 0 < r.next < c.servers[r.dst].peers[r.src].next
    ensures Path(c, c', false) && Kept(c, c') && Five(c') && c'.answered == c.answered
    ensures c'.servers == c.servers[r.dst := SetNext(c.servers[r.dst], r.src, r.next)]
  {
    OneStep(c, DeliverAppendResp(r, 0));
    c' := Step(c, DeliverAppendResp(r, 0));
    assert c'.servers[r.dst].peers.Keys == c.servers[r.dst].peers.Keys;
    assert |c'.servers[r.dst].peers| == |c.servers[r.dst].peers.Keys|;
  }

  // ----- the commit rule with five members

  lemma SameSize<T>(a: set<T>, b: set<T>)
    requires a <= b && |a| == |b|
    ensures a == b
  {
    if x :| x in b && x !in a {
      SubsetSize(a, b - {x});
    }
  }

  function One(on: bool): nat { if on then 1 else 0 }

  /** How many of five indexes have reached k. */
  function CountOf(own: nat, a: nat, b: nat, c: nat, d: nat, k: nat): nat {
    One(own >= k) + One(a >= k) + One(b >= k) + One(c >= k) + One(d >= k)
  }

  ghost predicate IsThird(own: nat, a: nat, b: nat, c: nat, d: nat, idx: nat) {
    forall k: nat :: CountOf(own, a, b, c, d, k) > 2 <==> k <= idx
  }

  lemma OthersOf(s: Server, v: nat, p: nat, q: nat, r: nat, t: nat)
    requires OfFive(s, v) && {p, q, r, t} <= s.peers.Keys && |{p, q, r, t}| == 4
    ensures Enumerates([p, q, r, t], s.peers.Keys)
  {
    SameSize({p, q, r, t}, s.peers.Keys);
    assert forall x :: x in {p, q, r, t} ==> x in [p, q, r, t];
  }

  lemma CountFour(peers: map<nat, Peer>, p: nat, q: nat, r: nat, t: nat, own: nat, k: nat)
    requires {p, q, r, t} <= peers.Keys
    ensures CountAtLeast([own] + Matched(peers, [p, q, r, t]), k)
            == CountOf(own, peers[p].matched, peers[q].matched, peers[r].matched, peers[t].matched, k)
  {
    CountCons(own, Matched(peers, [p, q, r, t]), k);
    assert [p, q, r, t][1..] == [q, r, t] && [q, r, t][1..] == [r, t] && [r, t][1..] == [t] && [t][1..] == [];
    assert Matched(peers, [t]) == [peers[t].matched] + [];
    assert Matched(peers, [r, t]) == [peers[r].matched] + Matched(peers, [t]);
    assert Matched(peers, [q, r, t]) == [peers[q].matched] + Matched(peers, [r, t]);
    assert Matched(peers, [p, q, r, t]) == [peers[p].matched] + Matched(peers, [q, r, t]);
    CountCons(peers[p].matched, Matched(peers, [q, r, t]), k);
    CountCons(peers[q].matched, Matched(peers, [r, t]), k);
    CountCons(peers[r].matched, Matched(peers, [t]), k);
    CountCons(peers[t].matched, [], k);
  }

  lemma RuleOfFive(s: Server, v: nat, p: nat, q: nat, r: nat, t: nat, idx: nat)
    requires OfFive(s, v) && {p, q, r, t} <= s.peers.Keys && |{p, q, r, t}| == 4
    requires IsThird(s.precommit, s.peers[p].matched, s.peers[q].matched, s.peers[r].matched, s.peers[t].matched, idx)
    ensures RuleValue(s, idx)
  {
    hide Supporters, Matched, CountAtLeast, CountOf, Enumerates;
    OthersOf(s, v, p, q, r, t);
    forall k: nat ensures |Supporters(s, k)| > Quorum(NumVoting(s)) <==> k <= idx {
      SupportersCounted(s, [p, q, r, t], k);
      CountFour(s.peers, p, q, r, t, s.precommit, k);
    }
  }

  // ----- an election

  lemma InitFive()
    ensures Five(Init(5)) && AnsweredUpTo(Init(5), 0)
    ensures forall v: nat :: v < 5 ==> Init(5).servers[v] == Fresh(v, 5)
  {
    hide Ids;
    forall v: nat | v < 5 ensures OfFive(Fresh(v, 5), v) {
      assert Fresh(v, 5).peers.Keys == Ids(5) - {v};
      assert |Ids(5) - {v}| == 4;
    }
  }

  lemma FirstElection(conf: LogEntry) returns (c: State)
    ensures Path(Init(5), c, false) && Five(c) && AnsweredUpTo(c, 1)
    ensures Is(c.servers[0], 1, Leader, [OwnTermConf(1, conf)], 0) && c.servers[0].precommit == 1
    ensures forall p :: p in c.servers[0].peers ==> c.servers[0].peers[p] == Peer(1, 0)
    ensures forall p :: p in c.servers[1].peers ==> c.servers[1].peers[p] == Peer(0, 0)
    ensures Is(c.servers[1], 0, Follower, [], 0) && Is(c.servers[2], 0, Follower, [], 0)
    ensures Is(c.servers[3], 1, Follower, [], 0) && Is(c.servers[4], 1, Follower, [], 0)
  {
    hide Path, Won, Voted, Init, Ids;
    InitFive();
    WonShape(Fresh(0, 5), conf);
    VotedShape(Fresh(3, 5), Fresh(0, 5));
    VotedShape(Fresh(4, 5), Fresh(0, 5));
    c := Election(Init(5), 0, 3, 4, conf);
  }

  /** A request from the start replaces a log of other terms. */
  lemma MergeFirst(log: Log, entries: seq<LogEntry>)
    requires entries != [] && (log == [] || log[0].term != entries[0].term)
    ensures Merge(log, 0, entries) == entries
  {
  }

  /** One peer acknowledges the first entry of term 1, which is not enough. */
  lemma OneAck(conf: LogEntry) returns (c: State)
    ensures Path(Init(5), c, false) && Five(c) && AppendResp(1, 0, 1, 2, true, false) in c.appResps
    ensures Is(c.servers[0], 1, Leader, [OwnTermConf(1, conf)], 0) && c.servers[0].precommit == 1
    ensures c.servers[0].peers[1] == Peer(2, 1)
    ensures forall p :: p in c.servers[0].peers && p != 1 ==> c.servers[0].peers[p] == Peer(1, 0)
    ensures Is(c.servers[2], 0, Follower, [], 0)
  {
    hide Path, Init, Merge, RuleValue;
    var c1 := FirstElection(conf);
    var c2 := Replicate(c1, 0, 1, 1);
    PathThen(Init(5), c1, c2, false, false);
    var r := AppendResp(1, 0, 1, 2, true, false);
    RuleOfFive(TakeAck(c2.servers[0], r), 0, 1, 2, 3, 4, 0);
    c := Acknowledged(c2, r, 0);
    PathThen(Init(5), c2, c, false, false);
  }

  /** A second one makes it a majority, and the rule commits the entry. */
  lemma CommitHappens(conf: LogEntry) returns (c: State)
    ensures Path(Init(5), c, false) && Reaches(5, c, c) && |c.servers| == 5 && c.servers[0].quickCommit == 1
    ensures AckedQuorum(c, 0, 1) && Committed(c, 1, 1, Acked(c, c.servers[0], 1))
  {
    hide Path, Init, Merge, Reaches, Committed, AckedQuorum, RuleValue;
    var c1 := OneAck(conf);
    var c2 := Replicate(c1, 0, 2, 1);
    PathThen(Init(5), c1, c2, false, false);
    var r := AppendResp(2, 0, 1, 2, true, false);
    RuleOfFive(TakeAck(c2.servers[0], r), 0, 1, 2, 3, 4, 1);
    c := Acknowledged(c2, r, 1);
    PathThen(Init(5), c2, c, false, false);
    NoSteps(c);
    PathReaches(5, c, c, false, false);
    TwoAcks(c);
    ReachInv(5, c, c);
    AckedQuorumCommitted(c, 0, 1);
  }

  lemma TwoAcks(c: State)
    requires Five(c) && c.servers[0].role == Leader && c.servers[0].term == 1
    requires |c.servers[0].log| == 1 && c.servers[0].log[0].term == 1
    requires AppendResp(1, 0, 1, 2, true, false) in c.appResps && AppendResp(2, 0, 1, 2, true, false) in c.appResps
    ensures AckedQuorum(c, 0, 1)
  {
    var s := c.servers[0];
    AnswerIsAck(c, AppendResp(1, 0, 1, 2, true, false), 1);
    AnswerIsAck(c, AppendResp(2, 0, 1, 2, true, false), 1);
    SubsetSize({0, 1, 2}, Acked(c, s, 1));
  }
}
