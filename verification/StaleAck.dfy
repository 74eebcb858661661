/**
 Two runs of five servers in which a matched index outlives the term it was acknowledged in. In
 the one, the leader takes the acknowledgement in its first reign and keeps the index when it is
 elected again (`early`). In the other, the acknowledgement reaches it in its second reign; its
 next index for that peer then lies beyond its log. Either way its matched indexes report a
 majority for an entry that only two servers have, and the commit rule commits it.
 */
module StaleAck {
  import opened Basics
  import opened LogEntries
  import opened Raft
  import opened Cluster
  import opened ClusterTheorems
  import opened Acks
  import opened CatchUp
  import opened CommitRule
  import opened ClusterExample

  function FirstLog(conf: LogEntry, e: LogEntry): Log {
    [OwnTermConf(1, conf), Stamped(e, 1, 0), Stamped(e, 1, 0)]
  }

  function SecondLog(conf: LogEntry): Log { [OwnTermConf(2, conf)] }

  function ThirdLog(conf: LogEntry): Log { [OwnTermConf(2, conf), OwnTermConf(3, conf)] }

  /** What server 1 tells server 0 in term 1. */
  function Ack(): AppendResp { AppendResp(1, 0, 1, 4, true, false) }

  /** Only the matched index of server 1 is known, and only if its acknowledgement has been taken. */
  predicate Knows(s: Server, taken: bool) {
    forall p :: p in s.peers ==> s.peers[p].matched == if taken && p == 1 then 3 else 0
  }

  /** Server 0 leads term 1; server 1 acknowledges three entries. */
  lemma FirstReign(conf: LogEntry, e: LogEntry) returns (c: State)
    ensures Path(Init(5), c, false) && Five(c) && AnsweredUpTo(c, 1) && Ack() in c.appResps
    ensures Is(c.servers[0], 1, Leader, FirstLog(conf, e), 0) && c.servers[0].precommit == 3
    ensures Knows(c.servers[0], false)
    ensures Is(c.servers[1], 1, Follower, FirstLog(conf, e), 0) && Is(c.servers[2], 0, Follower, [], 0)
    ensures Is(c.servers[3], 1, Follower, [], 0) && Is(c.servers[4], 1, Follower, [], 0)
    ensures Knows(c.servers[1], false)
  {
    hide Path, Init, Merge;
    var c1 := FirstElection(conf);
    var c2 := ClientEntry(c1, 0, e);
    var c3 := ClientEntry(c2, 0, e);
    PathThen(Init(5), c1, c2, false, false);
    PathThen(Init(5), c2, c3, false, false);
    var log := FirstLog(conf, e);
    assert c3.servers[0].log == log;
    c := Replicate(c3, 0, 1, 3);
    PathThen(Init(5), c3, c, false, false);
    assert log[0..3] == log;
    MergeFirst([], log);
  }

  /** The acknowledgement is taken in the term it belongs to, or stays on the network. */
  lemma FirstReignOver(conf: LogEntry, e: LogEntry, early: bool) returns (c: State)
    ensures Path(Init(5), c, false) && Five(c) && AnsweredUpTo(c, 1) && Ack() in c.appResps
    ensures Is(c.servers[0], 1, Leader, FirstLog(conf, e), 0) && Knows(c.servers[0], early)
    ensures Is(c.servers[1], 1, Follower, FirstLog(conf, e), 0) && Is(c.servers[2], 0, Follower, [], 0)
    ensures Is(c.servers[3], 1, Follower, [], 0) && Is(c.servers[4], 1, Follower, [], 0)
    ensures Knows(c.servers[1], false)
  {
    hide Path, Init, RuleValue;
    c := FirstReign(conf, e);
    if early {
      var c1 := c;
      RuleOfFive(TakeAck(c1.servers[0], Ack()), 0, 1, 2, 3, 4, 0);
      c := Acknowledged(c1, Ack(), 0);
      PathThen(Init(5), c1, c, false, false);
    }
  }

  lemma SecondElection(conf: LogEntry, e: LogEntry, early: bool) returns (c: State)
    ensures Path(Init(5), c, false) && Five(c) && AnsweredUpTo(c, 2) && Ack() in c.appResps
    ensures Is(c.servers[0], 1, Leader, FirstLog(conf, e), 0) && Knows(c.servers[0], early)
    ensures Is(c.servers[1], 1, Follower, FirstLog(conf, e), 0) && Knows(c.servers[1], false)
    ensures Is(c.servers[3], 2, Leader, SecondLog(conf), 0) && c.servers[3].precommit == 1
    ensures forall p :: p in c.servers[3].peers ==> c.servers[3].peers[p].next == 1
    ensures Is(c.servers[2], 2, Follower, [], 0) && Is(c.servers[4], 2, Follower, [], 0)
  {
    hide Path, Init, Won, Voted;
    var c1 := FirstReignOver(conf, e, early);
    WonShape(c1.servers[3], conf);
    VotedShape(c1.servers[2], c1.servers[3]);
    VotedShape(c1.servers[4], c1.servers[3]);
    c := Election(c1, 3, 2, 4, conf);
    PathThen(Init(5), c1, c, false, false);
    assert c.servers[0] == c1.servers[0] && c.servers[1] == c1.servers[1];
  }

  /** Server 3 leads term 2 and overwrites the log of server 0. */
  lemma SecondReign(conf: LogEntry, e: LogEntry, early: bool) returns (c: State)
    ensures Path(Init(5), c, false) && Five(c) && AnsweredUpTo(c, 2) && Ack() in c.appResps
    ensures Is(c.servers[0], 2, Follower, SecondLog(conf), 0) && Knows(c.servers[0], early)
    ensures Is(c.servers[1], 1, Follower, FirstLog(conf, e), 0) && Knows(c.servers[1], false)
    ensures Is(c.servers[3], 2, Leader, SecondLog(conf), 0)
    ensures Is(c.servers[2], 2, Follower, [], 0) && Is(c.servers[4], 2, Follower, [], 0)
  {
    hide Path, Init, Merge;
    var c1 := SecondElection(conf, e, early);
    c := Replicate(c1, 3, 0, 1);
    PathThen(Init(5), c1, c, false, false);
    MergeFirst(c1.servers[0].log, SecondLog(conf));
    assert c1.servers[3].log[0..1] == SecondLog(conf);
  }

  /** Server 0 leads term 3. */
  lemma ThirdElection(conf: LogEntry, e: LogEntry, early: bool) returns (c: State)
    ensures Path(Init(5), c, false) && Five(c) && AnsweredUpTo(c, 3) && Ack() in c.appResps
    ensures Is(c.servers[0], 3, Leader, ThirdLog(conf), 0) && c.servers[0].precommit == 2
    ensures Knows(c.servers[0], early) && forall p :: p in c.servers[0].peers ==> c.servers[0].peers[p].next == 2
    ensures Is(c.servers[1], 1, Follower, FirstLog(conf, e), 0) && Knows(c.servers[1], false)
    ensures Is(c.servers[3], 2, Leader, SecondLog(conf), 0)
    ensures Is(c.servers[2], 3, Follower, [], 0) && Is(c.servers[4], 3, Follower, [], 0)
  {
    hide Path, Init, Won, Voted;
    var c1 := SecondReign(conf, e, early);
    WonShape(c1.servers[0], conf);
    VotedShape(c1.servers[2], c1.servers[0]);
    VotedShape(c1.servers[4], c1.servers[0]);
    c := Election(c1, 0, 2, 4, conf);
    PathThen(Init(5), c1, c, false, false);
    assert c.servers[1] == c1.servers[1] && c.servers[3] == c1.servers[3];
  }

  /** By now server 0 counts the acknowledgement of term 1. */
  lemma ThirdReign(conf: LogEntry, e: LogEntry, early: bool) returns (c: State)
    ensures Path(Init(5), c, !early) && Five(c) && AnsweredUpTo(c, 3)
    ensures Is(c.servers[0], 3, Leader, ThirdLog(conf), 0) && c.servers[0].precommit == 2
    ensures Knows(c.servers[0], true) && c.servers[0].peers[1].next == (if early then 2 else 4)
    ensures forall p :: p in c.servers[0].peers && p != 1 ==> c.servers[0].peers[p].next == 2
    ensures Is(c.servers[1], 1, Follower, FirstLog(conf, e), 0) && Knows(c.servers[1], false)
    ensures Is(c.servers[3], 2, Leader, SecondLog(conf), 0)
    ensures Is(c.servers[2], 3, Follower, [], 0) && Is(c.servers[4], 3, Follower, [], 0)
  {
    hide Path, Init, RuleValue;
    c := ThirdElection(conf, e, early);
    if !early {
      var c1 := c;
      RuleOfFive(TakeAck(c1.servers[0], Ack()), 0, 1, 2, 3, 4, 0);
      c := Acknowledged(c1, Ack(), 0);
      PathThen(Init(5), c1, c, false, true);
    }
  }

  /** The next index of a leader can go beyond its log. */
  lemma NextLeavesRange(conf: LogEntry, e: LogEntry) returns (c: State)
    ensures Reaches(5, c, c) && |c.servers| == 5 && c.servers[0].role == Leader
    ensures 1 in c.servers[0].peers && !NextInRange(c.servers[0], 1)
  {
    hide Path, Init;
    c := ThirdReign(conf, e, false);
    NoSteps(c);
    PathReaches(5, c, c, true, false);
  }

  /** The rule then commits the leader's own entry, which server 3 alone has taken. */
  lemma WrongMajority(conf: LogEntry, e: LogEntry, early: bool) returns (c: State)
    ensures Path(Init(5), c, !early) && Five(c) && AnsweredUpTo(c, 3)
    ensures Is(c.servers[0], 3, Leader, ThirdLog(conf), 2) && RuleValue(c.servers[0], 2)
    ensures Is(c.servers[1], 1, Follower, FirstLog(conf, e), 0) && Knows(c.servers[1], false)
    ensures Is(c.servers[2], 3, Follower, [], 0) && Is(c.servers[4], 3, Follower, [], 0)
  {
    hide Path, Init, Merge, RuleValue;
    var c1 := ThirdReign(conf, e, early);
    var c2 := Replicate(c1, 0, 3, 1);
    PathThen(Init(5), c1, c2, !early, false);
    var r := AppendResp(3, 0, 3, 3, true, false);
    RuleOfFive(TakeAck(c2.servers[0], r), 0, 1, 2, 3, 4, 2);
    c := Acknowledged(c2, r, 2);
    PathThen(Init(5), c2, c, !early, false);
    RuleOfFive(c.servers[0], 0, 1, 2, 3, 4, 2);
  }

  /** Server 1, which lacks that entry, is elected in term 4. */
  lemma FourthReign(c: State, conf: LogEntry, e: LogEntry) returns (c': State)
    requires Five(c) && AnsweredUpTo(c, 3) && Is(c.servers[1], 1, Follower, FirstLog(conf, e), 0)
    requires Knows(c.servers[1], false)
    requires Is(c.servers[2], 3, Follower, [], 0) && Is(c.servers[4], 3, Follower, [], 0)
    ensures Path(c, c', false) && Five(c') && c'.servers[0] == c.servers[0]
    ensures Is(c'.servers[1], 4, Leader, FirstLog(conf, e) + [OwnTermConf(4, conf)], 0) && c'.servers[1].precommit == 4
    ensures Knows(c'.servers[1], false) && forall p :: p in c'.servers[1].peers ==> c'.servers[1].peers[p].next == 4
    ensures Is(c'.servers[2], 4, Follower, [], 0) && Is(c'.servers[4], 4, Follower, [], 0)
  {
    hide Path, Won, Voted;
    var c1 := Stands(c, 1, conf);
    var c2 := Stands(c1, 1, conf);
    PathThen(c, c1, c2, false, false);
    WonShape(c2.servers[1], conf);
    VotedShape(c2.servers[2], c2.servers[1]);
    VotedShape(c2.servers[4], c2.servers[1]);
    c' := Election(c2, 1, 2, 4, conf);
    PathThen(c, c2, c', false, false);
    assert c'.servers[0] == c.servers[0];
  }

  /**
   A majority of matched indexes for the leader's own entry, no majority that accepted it, and a
   later leader without it; without a stale response if `early`.
   */
  lemma CountersMislead(conf: LogEntry, e: LogEntry, early: bool) returns (c: State, c': State)
    ensures Path(Init(5), c, !early) && Path(c, c', false) && Reaches(5, c, c') && |c.servers| == |c'.servers| == 5
    ensures Is(c.servers[0], 3, Leader, ThirdLog(conf), 2)
    ensures RuleValue(c.servers[0], 2) && |Backers(c.servers[0], 2)| > Quorum(5)
    ensures c'.servers[1].role == Leader && c'.servers[1].term == 4
    ensures |c'.servers[1].log| > 1 && c'.servers[1].log[1].term == 1
    ensures forall q :: !Committed(c, 3, 2, q)
  {
    hide Path, Init, Backers, Committed, Reaches, RuleValue;
    c := WrongMajority(conf, e, early);
    RuleIsBacked(c.servers[0], 2);
    c' := FourthReign(c, conf, e);
    PathReaches(5, c, c', !early, false);
    NoSteps(c);
    PathReaches(5, c, c, !early, false);
    ReignIsLeaderLog(5, c, 0);
    assert c.elect[3].log[..2][1].term == 3;
    forall q | Committed(c, 3, 2, q) ensures false {
      LeaderCompleteness(5, c, c', 3, 2, q, 1);
    }
  }

  /** Server 1 replicates its whole log to a peer with an empty one. */
  lemma WholeLog(c: State, w: nat) returns (c': State)
    requires Five(c) && w < 5 && w != 1 && c.servers[1].role == Leader && c.servers[1].precommit == |c.servers[1].log| == 4
    requires c.servers[1].peers[w].next == 4 && Is(c.servers[w], c.servers[1].term, Follower, [], 0)
    ensures Path(c, c', false) && Kept(c, c') && Five(c')
    ensures c'.servers == c.servers[1 := SetNext(c.servers[1], w, 1)][w := c'.servers[w]]
    ensures AppendResp(w, 1, c.servers[1].term, 5, true, false) in c'.appResps
  {
    hide Path, Merge, SkipCount, TermAt, OfFive, SetNext;
    PeerOfFive(c.servers[1], 1, w);
    SetNextTwice(c.servers[1], w);
    var c1 := StartsOver(c, 1, w);
    c' := Replicate(c1, 1, w, 4);
    PathThen(c, c1, c', false, false);
  }

  lemma SetNextTwice(s: Server, w: nat)
    requires w in s.peers
    ensures var s' := SetNext(s, w, 1);
            && w in s'.peers && s'.peers[w].next == 1 && SetNext(s', w, 1) == s'
            && s'.role == s.role && s'.term == s.term && s'.log == s.log && s'.precommit == s.precommit
            && s'.quickCommit == s.quickCommit
  {
    var s' := SetNext(s, w, 1);
    assert SetNext(s', w, 1).peers == s'.peers;
  }

  lemma PeerOfFive(s: Server, v: nat, w: nat)
    requires OfFive(s, v) && w < 5 && w != v
    ensures w in s.peers
  {
  }

  /** Server 1's log reaches servers 2 and 4, and the rule commits it. */
  lemma FourthCommit(c: State) returns (c': State)
    requires Five(c) && c.servers[1].role == Leader && c.servers[1].term == 4 && c.servers[1].quickCommit == 0
    requires c.servers[1].precommit == |c.servers[1].log| == 4 && Knows(c.servers[1], false)
    requires forall p :: p in c.servers[1].peers ==> c.servers[1].peers[p].next == 4
    requires Is(c.servers[2], 4, Follower, [], 0) && Is(c.servers[4], 4, Follower, [], 0)
    ensures Path(c, c', false) && |c'.servers| == 5 && c'.servers[0] == c.servers[0]
    ensures c'.servers[1].log == c.servers[1].log && c'.servers[1].quickCommit == 4
  {
    hide Path, RuleValue;
    var (r2, r4) := (AppendResp(2, 1, 4, 5, true, false), AppendResp(4, 1, 4, 5, true, false));
    var c1 := WholeLog(c, 2);
    RuleOfFive(TakeAck(c1.servers[1], r2), 1, 0, 2, 3, 4, 0);
    var c2 := Acknowledged(c1, r2, 0);
    PathThen(c, c1, c2, false, false);
    var c3 := WholeLog(c2, 4);
    PathThen(c, c2, c3, false, false);
    RuleOfFive(TakeAck(c3.servers[1], r4), 1, 0, 2, 3, 4, 4);
    c' := Acknowledged(c3, r4, 4);
    PathThen(c, c3, c', false, false);
  }

  /**
   Two servers end with committed prefixes that are not comparable, although every commit index
   taken from a response is the one the rule selects; without a stale response if `early`.
   */
  lemma CommitsDiverge(conf: LogEntry, e: LogEntry, early: bool) returns (c: State)
    ensures Path(Init(5), c, !early) && |c.servers| == 5
    ensures var (s, s') := (c.servers[0], c.servers[1]);
            && s.quickCommit <= |s.log| && s'.quickCommit <= |s'.log|
            && !Comparable(s.log[..s.quickCommit], s'.log[..s'.quickCommit])
  {
    hide Path, Init, RuleValue;
    var c1 := WrongMajority(conf, e, early);
    var c2 := FourthReign(c1, conf, e);
    PathThen(Init(5), c1, c2, !early, false);
    c := FourthCommit(c2);
    PathThen(Init(5), c2, c, !early, false);
    var (s, s') := (c.servers[0], c.servers[1]);
    assert s.log[..s.quickCommit][0].term == 2 && s'.log[..s'.quickCommit][0].term == 1;
  }
}
