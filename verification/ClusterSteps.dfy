/** Every step of the cluster keeps the invariant. */
module ClusterSteps {
  import opened Basics
  import opened LogEntries
  import opened Quorums
  import opened Raft
  import opened Cluster
  import opened ClusterInv
  import opened ClusterFrame

  // ----- updates that touch neither term, vote nor log

  ghost predicate Quiet(s: Server, s': Server) {
    && s' == s.(role := s'.role, precommit := s'.precommit, quickCommit := s'.quickCommit,
               smCommit := s'.smCommit, votesResponded := s'.votesResponded,
               electionCompleted := s'.electionCompleted, peers := s'.peers)
    && s'.peers.Keys == s.peers.Keys
    && (s'.role == Leader ==> s.role == Leader && s'.precommit <= |s'.log|)
    && (s.electionCompleted ==> s'.electionCompleted)
  }

  lemma QuietServer(c: State, c': State, v: nat, s': Server)
    requires ServersOk(c) && v < |c.servers| && Quiet(c.servers[v], s') && c' == SetServer(c, v, s')
    ensures BallotOk(c', v) && LogOk(c', v)
  {
    assert BallotOk(c, v) && LogOk(c, v);
    forall g | g in c'.granted[v] ensures Counted(c', v, g) { assert Counted(c, v, g); }
  }

  lemma QuietInv(c: State, v: nat, s': Server)
    requires Inv(c) && v < |c.servers| && Quiet(c.servers[v], s')
    ensures Inv(SetServer(c, v, s'))
  {
    var c' := SetServer(c, v, s');
    QuietServer(c, c', v, s');
    GrowAcc(c, c', v);
    FrameInv(c, c', v);
  }

  // ----- messages

  ghost predicate OnlyMsgs(c: State, c': State) {
    && c' == c.(voteReqs := c'.voteReqs, voteResps := c'.voteResps, appReqs := c'.appReqs,
               appResps := c'.appResps, answered := c'.answered)
    && c.answered <= c'.answered
    && AddedMsgs(c, c')
  }

  lemma MsgsInv(c: State, c': State, v: nat)
    requires Inv(c) && v < |c.servers| && OnlyMsgs(c, c')
    ensures Inv(c')
  {
    assert BallotOk(c, v) && LogOk(c, v);
    forall g | g in c'.granted[v] ensures Counted(c', v, g) { assert Counted(c, v, g); }
    GrowAcc(c, c', v);
    FrameInv(c, c', v);
  }

  lemma AppReqInv(c: State, m: AppendReq)
    requires Inv(c) && AppReqOk(c, m)
    ensures Inv(c.(appReqs := c.appReqs + {m}))
  {
    MsgsInv(c, c.(appReqs := c.appReqs + {m}), m.src);
  }

  lemma AppRespInv(c: State, r: AppendResp)
    requires Inv(c) && AppRespOk(c, r)
    ensures Inv(c.(appResps := c.appResps + {r}))
  {
    MsgsInv(c, c.(appResps := c.appResps + {r}), r.src);
  }

  lemma AnsweredInv(c: State, v: nat, rpc: (nat, nat, nat))
    requires Inv(c) && v < |c.servers|
    ensures Inv(c.(answered := c.answered + {rpc}))
  {
    MsgsInv(c, c.(answered := c.answered + {rpc}), v);
  }

  // ----- term updates

  lemma BumpServer(c: State, c': State, v: nat, term: nat)
    requires ServersOk(c) && VotesOk(c) && v < |c.servers| && term > c.servers[v].term && c' == BumpTerm(c, v, term)
    ensures BallotOk(c', v) && LogOk(c', v)
  {
    assert BallotOk(c, v) && LogOk(c, v);
    assert (v, term) in c.votes ==> VoteOk(c, v, term);
  }

  lemma BumpInv(c: State, v: nat, term: nat)
    requires Inv(c) && v < |c.servers|
    ensures Inv(BumpTerm(c, v, term))
  {
    var c' := BumpTerm(c, v, term);
    if term > c.servers[v].term {
      BumpServer(c, c', v, term);
      GrowAcc(c, c', v);
      FrameInv(c, c', v);
    }
  }

  // ----- votes

  lemma StandVote(c: State, c': State, v: nat)
    requires Inv(c) && v < |c.servers| && c' == Stand(c, v)
    ensures BallotOk(c', v) && LogOk(c', v)
    ensures (v, c'.servers[v].term) !in c.votes
    ensures VoteOk(c', v, c'.servers[v].term)
  {
    var term := c'.servers[v].term;
    assert BallotOk(c, v) && LogOk(c, v);
    assert (v, term) in c.votes ==> VoteOk(c, v, term);
    assert Counted(c', v, v);
  }

  /** A new vote remembers what the voter had accepted in earlier terms. */
  lemma NewVoteLog(c: State, c': State, v: nat, term: nat)
    requires Inv(c) && v < |c.servers| && (v, term) !in c.votes
    requires c'.elect == c.elect && c'.acc == c.acc && (v, term) in c'.votes
    requires c'.votes[(v, term)].log == c.servers[v].log
    requires term == c.servers[v].term + 1 || term == c.servers[v].term
    ensures VoteLogOk(c', v, term)
  {
    hide ServersOk, MsgsOk;
    if term in c.elect {
      assert ReignOk(c, term);
      assert v in c.elect[term].voters ==> VoterOk(c, v, term);
    } else {
      var log := c.servers[v].log;
      forall t | t < term && (t, v) in c'.acc ensures HoldsUpTo(c'.elect, t, c'.acc[(t, v)], log, term) {
        assert AccOk(c, t, v);
        forall n | 0 <= n <= c'.acc[(t, v)] ensures Holds(c'.elect, t, n, log, term) {
          assert Holds(c.elect, t, n, log, c.servers[v].term + 1);
        }
      }
    }
  }

  lemma StandInv(c: State, v: nat)
    requires Inv(c) && v < |c.servers|
    ensures Inv(Stand(c, v))
  {
    hide MsgsOk, ReignOk, LogOk, VoteLogOk;
    var c' := Stand(c, v);
    StandVote(c, c', v);
    NewVoteLog(c, c', v, c'.servers[v].term);
    GrowAcc(c, c', v);
    FrameInv(c, c', v);
  }

  lemma AnswerVoteServer(c: State, c': State, m: VoteReq, priorityOk: bool)
    requires Inv(c) && m in c.voteReqs && m.dst < |c.servers| && c' == AnswerVote(c, m, priorityOk)
    ensures BallotOk(c', m.dst) && LogOk(c', m.dst)
    ensures forall r :: r in c'.voteResps && r !in c.voteResps ==> VoteRespOk(c', r)
  {
    var v := m.dst;
    assert BallotOk(c, v) && LogOk(c, v) && VoteReqOk(c, m);
    forall g | g in c'.granted[v] ensures Counted(c', v, g) { assert Counted(c, v, g); }
  }

  lemma AnswerVoteRecord(c: State, c': State, m: VoteReq, priorityOk: bool)
    requires Inv(c) && m in c.voteReqs && m.dst < |c.servers| && c' == AnswerVote(c, m, priorityOk)
    requires c'.votes != c.votes
    ensures (m.dst, m.term) !in c.votes && c'.votes == c.votes[(m.dst, m.term) := Vote(m.src, c.servers[m.dst].log)]
    ensures VoteOk(c', m.dst, m.term) && VoteLogOk(c', m.dst, m.term)
  {
    assert VoteReqOk(c, m) && BallotOk(c, m.dst) && LogOk(c, m.dst);
    NewVoteLog(c, c', m.dst, m.term);
  }

  lemma AnswerVoteInv(c: State, m: VoteReq, priorityOk: bool)
    requires Inv(c) && m in c.voteReqs && m.dst < |c.servers|
    ensures Inv(AnswerVote(c, m, priorityOk))
  {
    var c' := AnswerVote(c, m, priorityOk);
    AnswerVoteServer(c, c', m, priorityOk);
    if c'.votes != c.votes { AnswerVoteRecord(c, c', m, priorityOk); }
    GrowAcc(c, c', m.dst);
    FrameInv(c, c', m.dst);
  }

  lemma TakeVoteServer(c: State, c': State, r: VoteResp)
    requires Inv(c) && r in c.voteResps && r.dst < |c.servers| && (r.dst, r.src, r.reqTerm) !in c.answered
    requires CountsVote(c.servers[r.dst], r) && c' == TakeVote(c, r)
    ensures BallotOk(c', r.dst) && LogOk(c', r.dst)
  {
    hide AcceptedOk, VotesOk, ReignsOk, Genuine, Bounded;
    var v := r.dst;
    assert BallotOk(c, v) && LogOk(c, v) && VoteRespOk(c, r);
    assert r.accepted ==> r.src !in c.granted[v] by {
      assert r.src in c.granted[v] ==> Counted(c, v, r.src);
    }
    forall g | g in c'.granted[v] ensures Counted(c', v, g) {
      assert g in c.granted[v] ==> Counted(c, v, g);
    }
  }

  lemma TakeVoteInv(c: State, r: VoteResp)
    requires Inv(c) && r in c.voteResps && r.dst < |c.servers| && (r.dst, r.src, r.reqTerm) !in c.answered
    ensures Inv(TakeVote(c, r))
  {
    var c' := TakeVote(c, r);
    if CountsVote(c.servers[r.dst], r) {
      TakeVoteServer(c, c', r);
      GrowAcc(c, c', r.dst);
      FrameInv(c, c', r.dst);
    } else {
      AnsweredInv(c, r.dst, (r.dst, r.src, r.reqTerm));
    }
  }

  // ----- elections

  /** The bare counter reaching the quorum means a majority voted for this server. */
  lemma CountedMajority(c: State, v: nat)
    requires ServersOk(c) && v < |c.servers| && Elected(c.servers[v])
    ensures Majority(c.granted[v], Ids(|c.servers|))
    ensures forall g :: g in c.granted[v] ==> VotedFor(c, g, c.servers[v].term, v)
  {
    assert BallotOk(c, v);
    var n := |c.servers|;
    assert |Ids(n) - {v}| == n - 1;
    assert |c.servers[v].peers| == |c.servers[v].peers.Keys| == n - 1;
    forall g | g in c.granted[v] ensures g in Ids(n) && VotedFor(c, g, c.servers[v].term, v) {
      assert Counted(c, v, g);
    }
  }

  /** A term with a leader elects nobody else. */
  lemma OnlyLeader(c: State, v: nat)
    requires ServersOk(c) && ReignsOk(c) && v < |c.servers| && Elected(c.servers[v])
    requires c.servers[v].term in c.elect
    ensures c.elect[c.servers[v].term].leader == v
  {
    var term := c.servers[v].term;
    assert ReignOk(c, term);
    CountedMajority(c, v);
    var g := SetsMeet(c.granted[v], c.elect[term].voters, Ids(|c.servers|));
    assert VoterOk(c, g, term);
  }

  lemma OnlyOlderEntries(log: Log, elect: map<nat, Reign>, term: nat)
    requires Genuine(log, elect) && Bounded(log, term) && term !in elect && 1 <= term
    ensures Bounded(log, term - 1)
  {
    forall i | 0 <= i < |log| ensures log[i].term <= term - 1 {
      assert GenuineAt(log, i, elect);
    }
  }

  lemma GenuineAppend(log: Log, e: LogEntry, elect: map<nat, Reign>, elect': map<nat, Reign>)
    requires Genuine(log, elect) && ElectGrows(elect, elect')
    requires e.term in elect' && elect'[e.term].log == log + [e]
    ensures Genuine(log + [e], elect')
  {
    GenuineGrows(log, elect, elect');
    forall i | 0 <= i < |log + [e]| ensures GenuineAt(log + [e], i, elect') {
      if i < |log| { assert GenuineAt(log, i, elect') && (log + [e])[..i + 1] == log[..i + 1]; }
    }
  }

  /** A leader has accepted all it stored. */
  lemma LeaderAcc(c: State, v: nat)
    requires v < |c.servers| && c.servers[v].term in c.elect && c.elect[c.servers[v].term].log == c.servers[v].log
    requires (c.servers[v].term, v) in c.acc && c.acc[(c.servers[v].term, v)] == |c.servers[v].log|
    ensures AccOk(c, c.servers[v].term, v)
  {
    var (t, log, hi) := (c.servers[v].term, c.servers[v].log, c.servers[v].term + 1);
    forall n | 0 <= n <= |log| ensures Holds(c.elect, t, n, log, hi) {
      assert c.elect[t].log[..n] <= log;
    }
  }

  lemma CrownShape(c: State, v: nat, conf: LogEntry)
    requires v < |c.servers|
    ensures var (s, c') := (c.servers[v], Crown(c, v, conf));
            && c'.elect == c.elect[s.term := Reign(v, c.granted[v], s.log, s.log + [OwnTermConf(s.term, conf)])]
            && c'.votes == c.votes && |c'.servers| == |c.servers| && c'.servers[v].electionCompleted
            && forall w :: 0 <= w < |c.servers| ==> c'.servers[w].term == c.servers[w].term
  {
  }

  lemma CrownReign(c: State, c': State, v: nat, conf: LogEntry)
    requires Inv(c) && v < |c.servers| && Elected(c.servers[v]) && c.servers[v].term !in c.elect
    requires c' == Crown(c, v, conf)
    ensures ElectGrows(c.elect, c'.elect)
    ensures ReignOk(c', c.servers[v].term)
  {
    hide AcceptedOk, MsgsOk, Genuine, Crown, OwnTermConf;
    CrownShape(c, v, conf);
    var (s, term) := (c.servers[v], c.servers[v].term);
    assert LogOk(c, v);
    CountedMajority(c, v);
    var g := SetsMeet(c.granted[v], c.granted[v], Ids(|c.servers|));
    assert VotedFor(c, g, term, v) && VoteOk(c, g, term);
    OnlyOlderEntries(s.log, c.elect, term);
    ConfTerm(term, conf);
    GenuineAppend(s.log, OwnTermConf(term, conf), c.elect, c'.elect);
    forall w | w in c'.elect[term].voters ensures VoterOk(c', w, term) {
      assert VotedFor(c, w, term, v) && VoteOk(c, w, term);
    }
  }

  lemma ConfTerm(term: nat, conf: LogEntry)
    ensures OwnTermConf(term, conf).term == term
  {
  }

  lemma CrownServer(c: State, c': State, v: nat, conf: LogEntry)
    requires Inv(c) && v < |c.servers| && c.servers[v].term !in c.elect && c' == Crown(c, v, conf)
    requires ReignOk(c', c.servers[v].term)
    ensures BallotOk(c', v) && LogOk(c', v)
  {
    assert BallotOk(c, v) && LogOk(c, v);
    forall g | g in c'.granted[v] ensures Counted(c', v, g) { assert Counted(c, v, g); }
  }

  lemma CrownInv(c: State, v: nat, conf: LogEntry)
    requires Inv(c) && v < |c.servers| && Elected(c.servers[v]) && c.servers[v].term !in c.elect
    ensures Inv(Crown(c, v, conf))
  {
    hide MsgsOk, VotesOk, ReignOk, BallotOk, LogOk, VoteLogOk;
    var c' := Crown(c, v, conf);
    var term := c.servers[v].term;
    CrownReign(c, c', v, conf);
    CrownServer(c, c', v, conf);
    GrowAcc(c, c', v);
    LeaderAcc(c', v);
    FrameInv(c, c', v);
  }

  // ----- entries stored by the leader

  lemma StoreReign(c: State, c': State, v: nat, e: LogEntry)
    requires Inv(c) && v < |c.servers| && c.servers[v].role == Leader && e.term == c.servers[v].term
    requires c' == LeaderStore(c, v, e)
    ensures ElectGrows(c.elect, c'.elect)
    ensures c.servers[v].term in c.elect && ReignOk(c', c.servers[v].term)
  {
    hide AcceptedOk, MsgsOk, VotesOk, Genuine;
    var (s, term) := (c.servers[v], c.servers[v].term);
    assert LogOk(c, v) && ReignOk(c, term);
    assert c'.elect == c.elect[term := c.elect[term].(log := s.log + [e])];
    GenuineAppend(s.log, e, c.elect, c'.elect);
    forall w | w in c'.elect[term].voters ensures VoterOk(c', w, term) { assert VoterOk(c, w, term); }
  }

  lemma StoreServer(c: State, c': State, v: nat, e: LogEntry)
    requires Inv(c) && v < |c.servers| && c.servers[v].role == Leader && e.term == c.servers[v].term
    requires c' == LeaderStore(c, v, e) && c.servers[v].term in c.elect && ReignOk(c', c.servers[v].term)
    ensures BallotOk(c', v) && LogOk(c', v)
  {
    assert BallotOk(c, v) && LogOk(c, v);
    forall g | g in c'.granted[v] ensures Counted(c', v, g) { assert Counted(c, v, g); }
  }

  lemma StoreEvolves(c: State, c': State, v: nat, e: LogEntry)
    requires v < |c.servers| && c' == LeaderStore(c, v, e) && ElectGrows(c.elect, c'.elect)
    requires c.servers[v].term in c.elect && c.elect[c.servers[v].term].leader == v
    requires (c.servers[v].term, v) in c.acc ==> c.acc[(c.servers[v].term, v)] <= |c.servers[v].log|
    ensures Evolves(c, c', v)
  {
  }

  lemma StoreInv(c: State, v: nat, e: LogEntry)
    requires Inv(c) && v < |c.servers| && c.servers[v].role == Leader && e.term == c.servers[v].term
    ensures Inv(LeaderStore(c, v, e))
  {
    hide MsgsOk, VotesOk, ReignOk, BallotOk, VoteLogOk;
    var c' := LeaderStore(c, v, e);
    StoreReign(c, c', v, e);
    StoreServer(c, c', v, e);
    GrowAcc(c, c', v);
    LeaderAcc(c', v);
    assert LogOk(c, v);
    assert (c.servers[v].term, v) in c.acc ==> AccOk(c, c.servers[v].term, v);
    StoreEvolves(c, c', v, e);
    FrameInv(c, c', v);
  }

  // ----- entries accepted from the leader

  /** Same term at the same index means the same log up to there. */
  lemma SameTermSamePrefix(a: Log, b: Log, elect: map<nat, Reign>, i: nat)
    requires Genuine(a, elect) && Genuine(b, elect)
    requires i < |a| && i < |b| && a[i].term == b[i].term
    ensures a[..i + 1] == b[..i + 1]
  {
    assert GenuineAt(a, i, elect) && GenuineAt(b, i, elect);
  }

  /** Agreement on the request's previous entry and on the last skipped one is agreement up to there. */
  lemma AgreeUpTo(log: Log, lead: Log, elect: map<nat, Reign>, prev: nat, d: nat)
    requires Genuine(log, elect) && Genuine(lead, elect)
    requires prev <= d <= |lead| && d <= |log| && LogOkay(log, prev, TermAt(lead, prev))
    requires d > prev ==> log[d - 1].term == lead[d - 1].term
    ensures log[..d] == lead[..d]
  {
    if d > 0 { SameTermSamePrefix(log, lead, elect, d - 1); }
  }

  /** Writing a slice of the leader's log: nothing changes, or the log becomes the leader's from the first difference on. */
  lemma MergeLeaderSlice(log: Log, lead: Log, elect: map<nat, Reign>, prev: nat, entries: Log)
    requires Genuine(log, elect) && Genuine(lead, elect)
    requires prev + |entries| <= |lead| && entries == lead[prev..prev + |entries|]
    requires prev <= |log| && LogOkay(log, prev, TermAt(lead, prev))
    ensures Merged(log, lead, Merge(log, prev, entries), prev + |entries|)
  {
    var k := SkipCount(log, prev, entries);
    assert k > 0 ==> entries[k - 1] == lead[prev + k - 1];
    AgreeUpTo(log, lead, elect, prev, prev + k);
    if k < |entries| {
      MergeDiverges(log, lead, prev, entries, k);
    } else {
      assert lead[..prev + |entries|] == log[..prev + k];
    }
  }

  lemma MergeDiverges(log: Log, lead: Log, prev: nat, entries: Log, k: nat)
    requires k < |entries| && prev + |entries| <= |lead| && entries == lead[prev..prev + |entries|]
    requires prev + k <= |log| && log[..prev + k] == lead[..prev + k]
    requires prev + k < |log| ==> log[prev + k].term != entries[k].term
    ensures log[..prev + k] + entries[k..] == lead[..prev + |entries|]
    ensures Diverges(log, lead, prev + k)
  {
    assert entries[k] == lead[prev + k];
  }

  /** The logs agree below `d`, and `d` is missing in `log` or differs. */
  ghost predicate Diverges(log: Log, lead: Log, d: nat) {
    d <= |log| && d < |lead| && log[..d] == lead[..d] && (d < |log| ==> log[d] != lead[d])
  }

  ghost predicate Merged(log: Log, lead: Log, log': Log, upTo: nat)
    requires upTo <= |lead|
  {
    && lead[..upTo] <= log'
    && (log' == log || (log' == lead[..upTo] && exists d: nat :: d < upTo && Diverges(log, lead, d)))
  }

  lemma MergedKeeps(log: Log, lead: Log, log': Log, upTo: nat, x: Log)
    requires upTo <= |lead| && Merged(log, lead, log', upTo) && x <= log && x <= lead
    ensures x <= log'
  {
    if log' != log {
      var d: nat :| d < upTo && Diverges(log, lead, d);
      assert forall i :: 0 <= i < |x| ==> log[i] == lead[i];
    }
  }

  lemma GenuinePrefix(log: Log, elect: map<nat, Reign>, k: nat)
    requires Genuine(log, elect) && k <= |log|
    ensures Genuine(log[..k], elect)
  {
    forall i | 0 <= i < k ensures GenuineAt(log[..k], i, elect) {
      assert GenuineAt(log, i, elect) && log[..k][..i + 1] == log[..i + 1];
    }
  }

  /** Accepting from the leader of `term` loses nothing accepted earlier, unless that leader lacks it. */
  lemma MergeHolds(elect: map<nat, Reign>, t: nat, k: nat, log: Log, log': Log, term: nat, upTo: nat)
    requires HoldsUpTo(elect, t, k, log, term + 1) && term in elect && t <= term
    requires elect[term].base <= elect[term].log
    requires upTo <= |elect[term].log| && Merged(log, elect[term].log, log', upTo)
    ensures HoldsUpTo(elect, t, k, log', term + 1)
  {
    var hi := term + 1;
    forall n | 0 <= n <= k ensures Holds(elect, t, n, log', hi) {
      var x := elect[t].log[..n];
      assert Holds(elect, t, n, log, hi);
      if x <= log {
        if x <= elect[term].log {
          MergedKeeps(log, elect[term].log, log', upTo, x);
        } else {
          assert Overruled(elect, x, t, hi);
        }
      }
    }
  }

  lemma AcceptedSlice(log: Log, lead: Log, elect: map<nat, Reign>, term: nat, prev: nat, entries: Log, k: nat)
    requires Genuine(log, elect) && Genuine(lead, elect) && Bounded(log, term) && Bounded(lead, term)
    requires prev + |entries| <= |lead| && entries == lead[prev..prev + |entries|]
    requires prev <= |log| && LogOkay(log, prev, TermAt(lead, prev)) && k <= |entries|
    ensures var log' := Merge(log, prev, entries[..k]);
            Merged(log, lead, log', prev + k) && Genuine(log', elect) && Bounded(log', term)
  {
    hide Merge, Genuine, TermAt;
    assert entries[..k] == lead[prev..prev + k];
    MergeLeaderSlice(log, lead, elect, prev, entries[..k]);
    GenuinePrefix(lead, elect, prev + k);
  }

  lemma AcceptLog(c: State, m: AppendReq, stopAfter: Option<nat>)
    requires Inv(c) && m in c.appReqs && m.dst < |c.servers| && Accepts(c.servers[m.dst], m, false)
    ensures m.prevIdx <= |c.servers[m.dst].log| && m.term in c.elect
    ensures var (s, lead) := (c.servers[m.dst], c.elect[m.term].log);
            var (upTo, log') := (m.prevIdx + Reached(s.log, m, stopAfter), WriteEntries(s, m, stopAfter).log);
            && upTo <= |lead|
            && Merged(s.log, lead, log', upTo)
            && Genuine(log', c.elect)
            && Bounded(log', s.term)
  {
    hide Merged, Merge, SkipCount, Genuine, Bounded, AcceptedOk, VotesOk;
    var (s, lead) := (c.servers[m.dst], c.elect[m.term].log);
    assert LogOk(c, m.dst) && AppReqOk(c, m) && ReignOk(c, m.term);
    assert m.prevIdx <= |s.log|;
    AcceptedSlice(s.log, lead, c.elect, s.term, m.prevIdx, m.entries, Reached(s.log, m, stopAfter));
  }

  /** What an accepted request changes. */
  ghost predicate Accepted(c: State, c': State, m: AppendReq, stopAfter: Option<nat>)
    requires m.dst < |c.servers| && m.prevIdx <= |c.servers[m.dst].log|
  {
    var v := m.dst;
    && Evolves(c, c', v)
    && var (s, s', k) := (c.servers[v], c'.servers[v], (m.term, v));
    && s' == s.(role := Follower, log := WriteEntries(s, m, stopAfter).log, precommit := s'.precommit,
                quickCommit := s'.quickCommit, smCommit := s'.smCommit)
    && c'.elect == c.elect && c'.votes == c.votes && c'.granted == c.granted
    && c'.voteReqs == c.voteReqs && c'.voteResps == c.voteResps && c'.appReqs == c.appReqs
    && (c'.acc == c.acc ||
        (!Stops(s.log, m, stopAfter) &&
         c'.acc == c.acc[k := Max(if k in c.acc then c.acc[k] else 0, m.prevIdx + |m.entries|)]))
    && (forall r :: r in c'.appResps && r !in c.appResps ==>
          && r.src == s.id && r.dst == m.src
          && (r.accepted ==> 0 < r.next && (r.term, v) in c'.acc && r.next - 1 <= c'.acc[(r.term, v)]))
  }

  ghost predicate AcceptedServer(s: Server, m: AppendReq, stopAfter: Option<nat>, s': Server, r: Option<AppendResp>)
    requires m.prevIdx <= |s.log|
  {
    && s' == s.(role := Follower, log := WriteEntries(s, m, stopAfter).log, precommit := s'.precommit,
                quickCommit := s'.quickCommit, smCommit := s'.smCommit)
    && r.Some? && r.value.src == s.id && r.value.dst == m.src && r.value.term == s.term
    && (r.value.accepted <==> !Stops(s.log, m, stopAfter))
    && (r.value.accepted ==> r.value.next == m.prevIdx + |m.entries| + 1)
  }

  lemma HandleAccept(s: Server, m: AppendReq, stopAfter: Option<nat>)
    requires Accepts(s, m, false)
    ensures m.prevIdx <= |s.log|
    ensures var (s', r) := HandleAppend(s, m, false, stopAfter);
            AcceptedServer(s, m, stopAfter, s', r)
  {
    assert m.prevIdx <= |s.log|;
  }

  lemma RecordShape(c: State, m: AppendReq, stopAfter: Option<nat>, s': Server, r: Option<AppendResp>)
    requires m.dst < |c.servers| && m.prevIdx <= |c.servers[m.dst].log| && m.term in c.elect
    requires m.term == c.servers[m.dst].term && AcceptedServer(c.servers[m.dst], m, stopAfter, s', r)
    ensures Accepted(c, RecordAppend(c, m, s', r), m, stopAfter)
  {
  }

  lemma AcceptShape(c: State, m: AppendReq, stopAfter: Option<nat>)
    requires m.dst < |c.servers| && Accepts(c.servers[m.dst], m, false) && m.term in c.elect
    ensures m.prevIdx <= |c.servers[m.dst].log|
    ensures Accepted(c, AnswerAppend(c, m, false, stopAfter), m, stopAfter)
  {
    HandleAccept(c.servers[m.dst], m, stopAfter);
    var (s', r) := HandleAppend(c.servers[m.dst], m, false, stopAfter);
    RecordShape(c, m, stopAfter, s', r);
  }

  lemma AcceptServer(c: State, c': State, m: AppendReq, stopAfter: Option<nat>)
    requires Inv(c) && m in c.appReqs && m.dst < |c.servers| && Accepts(c.servers[m.dst], m, false)
    requires m.prevIdx <= |c.servers[m.dst].log| && Accepted(c, c', m, stopAfter)
    ensures BallotOk(c', m.dst) && LogOk(c', m.dst)
  {
    var v := m.dst;
    AcceptLog(c, m, stopAfter);
    assert BallotOk(c, v) && LogOk(c, v);
    forall g | g in c'.granted[v] ensures Counted(c', v, g) { assert Counted(c, v, g); }
  }

  lemma OwnHolds(elect: map<nat, Reign>, term: nat, log: Log, log': Log, upTo: nat, hi: nat)
    requires term in elect && upTo <= |elect[term].log| && Merged(log, elect[term].log, log', upTo)
    ensures HoldsUpTo(elect, term, upTo, log', hi)
  {
    var lead := elect[term].log;
    forall n | 0 <= n <= upTo ensures Holds(elect, term, n, log', hi) {
      assert lead[..n] <= lead[..upTo] <= log';
    }
  }

  lemma AcceptAccAt(c: State, c': State, m: AppendReq, t: nat, upTo: nat)
    requires AcceptedOk(c) && ReignsOk(c) && m.dst < |c.servers| == |c'.servers| && m.term in c.elect && c'.elect == c.elect
    requires c.servers[m.dst].term == c'.servers[m.dst].term == m.term
    requires upTo <= |c.elect[m.term].log| && Merged(c.servers[m.dst].log, c.elect[m.term].log, c'.servers[m.dst].log, upTo)
    requires (t, m.dst) in c'.acc
    requires ((t, m.dst) in c.acc && c'.acc[(t, m.dst)] == c.acc[(t, m.dst)])
          || (t == m.term && c'.acc[(t, m.dst)] == upTo)
    ensures AccOk(c', t, m.dst)
  {
    hide Merged, HoldsUpTo;
    var v := m.dst;
    assert ReignOk(c, m.term);
    var (log, log') := (c.servers[v].log, c'.servers[v].log);
    if (t, v) in c.acc && c'.acc[(t, v)] == c.acc[(t, v)] {
      assert AccOk(c, t, v);
      MergeHolds(c.elect, t, c.acc[(t, v)], log, log', m.term, upTo);
    } else {
      OwnHolds(c.elect, m.term, log, log', upTo, m.term + 1);
    }
  }

  lemma AcceptAcc(c: State, c': State, m: AppendReq, stopAfter: Option<nat>)
    requires Inv(c) && m in c.appReqs && m.dst < |c.servers| && Accepts(c.servers[m.dst], m, false)
    requires m.prevIdx <= |c.servers[m.dst].log| && Accepted(c, c', m, stopAfter)
    ensures forall t :: (t, m.dst) in c'.acc ==> AccOk(c', t, m.dst)
  {
    hide Merged, AccOk, ServersOk, VotesOk, MsgsOk, ReignOk, VoteLogOk, Evolves;
    AcceptLog(c, m, stopAfter);
    var upTo := m.prevIdx + Reached(c.servers[m.dst].log, m, stopAfter);
    forall t | (t, m.dst) in c'.acc ensures AccOk(c', t, m.dst) {
      AcceptAccAt(c, c', m, t, upTo);
    }
  }

  lemma AcceptInv(c: State, c': State, m: AppendReq, stopAfter: Option<nat>)
    requires Inv(c) && m in c.appReqs && m.dst < |c.servers| && Accepts(c.servers[m.dst], m, false)
    requires m.prevIdx <= |c.servers[m.dst].log| && Accepted(c, c', m, stopAfter)
    ensures Inv(c')
  {
    hide WriteEntries, Stops, BallotOk, LogOk, AccOk, Accepts, VotesOk, ReignsOk, AcceptedOk;
    assert AppReqOk(c, m) && BallotOk(c, m.dst);
    AcceptServer(c, c', m, stopAfter);
    AcceptAcc(c, c', m, stopAfter);
    FrameInv(c, c', m.dst);
  }

  lemma RejectShape(s: Server, m: AppendReq, declined: bool, stopAfter: Option<nat>)
    requires m.term <= s.term && !Accepts(s, m, declined)
    requires s.role == Leader ==> s.precommit <= |s.log|
    ensures var (s', r) := HandleAppend(s, m, declined, stopAfter);
            && Quiet(s, s')
            && (r.Some? ==> r.value.src == s.id && r.value.dst == m.src && !r.value.accepted)
  {
  }

  lemma AnswerAppendInv(c: State, m: AppendReq, declined: bool, stopAfter: Option<nat>)
    requires Inv(c) && m in c.appReqs && m.dst < |c.servers|
    requires m.term <= c.servers[m.dst].term
    ensures Inv(AnswerAppend(c, m, declined, stopAfter))
  {
    var (c', s) := (AnswerAppend(c, m, declined, stopAfter), c.servers[m.dst]);
    assert AppReqOk(c, m) && BallotOk(c, m.dst) && LogOk(c, m.dst);
    if Accepts(s, m, declined) {
      AcceptShape(c, m, stopAfter);
      AcceptInv(c, c', m, stopAfter);
    } else {
      RejectShape(s, m, declined, stopAfter);
      var (s', r) := HandleAppend(s, m, declined, stopAfter);
      var c1 := SetServer(c, m.dst, s');
      QuietInv(c, m.dst, s');
      if r.Some? {
        AppRespInv(c1, r.value);
        assert c' == c1.(appResps := c1.appResps + {r.value});
      } else {
        assert c' == c1;
      }
    }
  }

  // ----- sending and restarting

  lemma SendInv(c: State, v: nat, p: nat, k: nat)
    requires Inv(c) && v < |c.servers| && CanSend(c.servers[v], p, k)
    ensures Inv(Send(c, v, p, k))
  {
    hide AcceptedOk, VotesOk, ReignsOk, MsgsOk, Genuine, Bounded;
    var s := c.servers[v];
    var s' := SetNext(s, p, NextFor(s, p));
    assert LogOk(c, v) && BallotOk(c, v) && s'.peers.Keys == s.peers.Keys;
    AppReqInv(c, BuildAppendReq(s, p, k));
    var c1 := c.(appReqs := c.appReqs + {BuildAppendReq(s, p, k)});
    QuietInv(c1, v, s');
    assert Send(c, v, p, k) == SetServer(c1, v, s');
  }

  lemma ReconnectInv(c: State, v: nat, p: nat)
    requires Inv(c) && v < |c.servers| && c.servers[v].role == Leader && p in c.servers[v].peers
    ensures Inv(SetServer(c, v, ResetPeer(c.servers[v], p)))
  {
    hide AcceptedOk, VotesOk, ReignsOk, MsgsOk, Genuine, Bounded;
    var s' := ResetPeer(c.servers[v], p);
    assert LogOk(c, v) && BallotOk(c, v) && s'.peers.Keys == c.servers[v].peers.Keys;
    QuietInv(c, v, s');
  }

  lemma AppendRespInv(c: State, r: AppendResp, committed: nat)
    requires Inv(c) && r.dst < |c.servers| && (r.accepted ==> 0 < r.next)
    ensures Inv(TakeAppendResp(c, r, committed))
  {
    if r.term > c.servers[r.dst].term {
      BumpInv(c, r.dst, r.term);
    } else {
      assert LogOk(c, r.dst);
      var s' := HandleAppendResp(c.servers[r.dst], r, committed);
      assert s'.peers.Keys == c.servers[r.dst].peers.Keys;
      QuietInv(c, r.dst, s');
    }
  }

  lemma RestartInv(c: State, v: nat, lastCommit: nat)
    requires Inv(c) && v < |c.servers|
    ensures Inv(Reboot(c, v, lastCommit))
  {
    var c' := Reboot(c, v, lastCommit);
    assert BallotOk(c, v) && LogOk(c, v);
    assert BallotOk(c', v) && LogOk(c', v);
    GrowAcc(c, c', v);
    FrameInv(c, c', v);
  }

  /** A server that reaches the quorum before its election is completed is the term's first leader. */
  lemma FirstLeader(c: State, c1: State, v: nat)
    requires Inv(c) && Inv(c1) && c1.elect == c.elect
    requires v < |c.servers| && v < |c1.servers| && Elected(c1.servers[v])
    requires c1.servers[v].term == c.servers[v].term ==> !c.servers[v].electionCompleted
    requires c1.servers[v].term >= c.servers[v].term
    ensures c1.servers[v].term !in c.elect
  {
    var term := c1.servers[v].term;
    assert term in c.elect ==> ReignOk(c, term);
    if term in c1.elect { OnlyLeader(c1, v); }
  }

  lemma StartVoteInv(c: State, v: nat, conf: LogEntry)
    requires Inv(c) && v < |c.servers|
    ensures Inv(CrownIfElected(Stand(c, v), v, conf))
  {
    var c1 := Stand(c, v);
    StandInv(c, v);
    if Elected(c1.servers[v]) {
      FirstLeader(c, c1, v);
      CrownInv(c1, v, conf);
    }
  }

  lemma VoteRespInv(c: State, r: VoteResp, conf: LogEntry)
    requires Inv(c) && r in c.voteResps && r.dst < |c.servers| && (r.dst, r.src, r.reqTerm) !in c.answered
    ensures Inv(TakeVoteResp(c, r, conf))
  {
    var v := r.dst;
    if r.term > c.servers[v].term {
      BumpInv(c, v, r.term);
      AnsweredInv(BumpTerm(c, v, r.term), v, (v, r.src, r.reqTerm));
    } else {
      TakeVoteInv(c, r);
      var c1 := TakeVote(c, r);
      if CountsVote(c.servers[v], r) && Elected(c1.servers[v]) {
        FirstLeader(c, c1, v);
        CrownInv(c1, v, conf);
      }
    }
  }

  // ----- any step, any run

  lemma ClientDoneInv(c: State, v: nat, last: nat)
    requires Inv(c) && v < |c.servers| && c.servers[v].role == Leader && last <= |c.servers[v].log|
    ensures Inv(SetServer(c, v, CommitIfAlone(RaisePrecommit(c.servers[v], last))))
  {
    assert LogOk(c, v);
    QuietInv(c, v, CommitIfAlone(RaisePrecommit(c.servers[v], last)));
  }

  lemma StepInv(c: State, a: Action)
    requires Inv(c) && Enabled(c, a)
    ensures Inv(Step(c, a))
  {
    hide Inv, LeaderStore, Send, AnswerAppend, AnswerVote, TakeVoteResp, TakeAppendResp, Reboot, Stand;
    match a
    case StartVote(v, conf) => StartVoteInv(c, v, conf);
    case DeliverVoteReq(m, priorityOk) =>
      BumpInv(c, m.dst, m.term);
      AnswerVoteInv(BumpTerm(c, m.dst, m.term), m, priorityOk);
    case DeliverVoteResp(r, conf) => VoteRespInv(c, r, conf);
    case ClientStore(v, e, ts) => StoreInv(c, v, Stamped(e, c.servers[v].term, ts));
    case ClientDone(v, last) => ClientDoneInv(c, v, last);
    case Reconnect(v, p) => ReconnectInv(c, v, p);
    case SendAppend(v, p, k) => SendInv(c, v, p, k);
    case DeliverAppendReq(m, declined, stop) =>
      BumpInv(c, m.dst, m.term);
      AnswerAppendInv(BumpTerm(c, m.dst, m.term), m, declined, stop);
    case DeliverAppendResp(r, committed) => AppendRespInv(c, r, committed);
    case StepDown(v) => QuietInv(c, v, BecomeFollower(c.servers[v]));
    case PreVote(v) => QuietInv(c, v, c.servers[v].(role := Candidate));
    case CrashRestart(v, lastCommit) => RestartInv(c, v, lastCommit);
  }

  lemma InitInv(n: nat)
    ensures Inv(Init(n))
  {
    var c := Init(n);
    forall v | 0 <= v < n ensures BallotOk(c, v) && LogOk(c, v) {
      assert c.servers[v] == Fresh(v, n);
    }
  }

  lemma {:induction false} RunInv(states: seq<State>, actions: seq<Action>, i: nat)
    requires IsRun(states, actions) && i < |states| && Inv(states[0])
    ensures Inv(states[i])
  {
    hide Inv, Step, Enabled;
    if i == 0 {
    } else {
      RunInv(states, actions, i - 1);
      assert Follows(states, actions, i - 1);
      StepInv(states[i - 1], actions[i - 1]);
    }
  }
}
