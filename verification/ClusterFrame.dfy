/**
 One step changes one server and what it adds to the history. This module proves once that
 everything else keeps its part of the invariant; a step then only has to account for the
 server it touches and for the records it adds.
 */
module ClusterFrame {
  import opened LogEntries
  import opened Raft
  import opened Cluster
  import opened ClusterInv

  // ----- growing history

  ghost predicate ElectGrows(e: map<nat, Reign>, e': map<nat, Reign>) {
    forall t :: t in e ==> t in e' && e'[t] == e[t].(log := e'[t].log) && e[t].log <= e'[t].log
  }

  lemma GenuineGrows(log: Log, e: map<nat, Reign>, e': map<nat, Reign>)
    requires Genuine(log, e) && ElectGrows(e, e')
    ensures Genuine(log, e')
  {
    forall i | 0 <= i < |log| ensures GenuineAt(log, i, e') {
      assert GenuineAt(log, i, e);
    }
  }

  lemma HoldsGrows(e: map<nat, Reign>, e': map<nat, Reign>, t: nat, n: nat, log: Log, hi: nat, log': Log, hi': nat)
    requires ElectGrows(e, e') && t in e && n <= |e[t].log| && Holds(e, t, n, log, hi)
    requires log <= log' && hi <= hi'
    ensures Holds(e', t, n, log', hi')
  {
    var x := e[t].log[..n];
    assert e'[t].log[..n] == x;
    if !(x <= log) {
      var u :| u in e && t < u < hi && !(x <= e[u].base);
      assert u in e' && t < u < hi' && !(x <= e'[u].base);
    }
  }

  lemma HoldsUpToGrows(e: map<nat, Reign>, e': map<nat, Reign>, t: nat, k: nat, log: Log, hi: nat, log': Log, hi': nat)
    requires ElectGrows(e, e') && HoldsUpTo(e, t, k, log, hi) && log <= log' && hi <= hi'
    ensures HoldsUpTo(e', t, k, log', hi')
  {
    forall n | 0 <= n <= k ensures Holds(e', t, n, log', hi') {
      HoldsGrows(e, e', t, n, log, hi, log', hi');
    }
  }

  /** What a step may do to server v and to the history. */
  ghost predicate Evolves(c: State, c': State, v: nat) {
    && v < |c.servers| == |c'.servers|
    && (forall w :: 0 <= w < |c.servers| && w != v ==>
          c'.servers[w] == c.servers[w] && c'.granted[w] == c.granted[w])
    && var (s, s') := (c.servers[v], c'.servers[v]);
    && s.term <= s'.term
    && (s.term == s'.term && s'.term !in c'.elect ==> s'.log == s.log)
    && (s.term == s'.term && s.electionCompleted ==> s'.electionCompleted)
    && c.answered <= c'.answered
    && (forall k :: k in c.votes ==> k in c'.votes && c'.votes[k] == c.votes[k])
    && (forall k :: k in c'.votes && k !in c.votes ==> k == (v, s'.term))
    && ElectGrows(c.elect, c'.elect)
    && (forall t :: t in c.elect && c.elect[t].leader != v ==> c'.elect[t] == c.elect[t])
    && (forall k :: k in c.acc && k != (s'.term, v) ==> k in c'.acc && c'.acc[k] == c.acc[k])
    && (forall k :: k in c.acc ==> k in c'.acc && c.acc[k] <= c'.acc[k])
    && (forall k :: k in c'.acc && k !in c.acc ==> k == (s'.term, v))
  }

  ghost predicate TouchedServer(c: State, c': State, v: nat)
    requires v < |c'.servers|
  {
    && BallotOk(c', v)
    && LogOk(c', v)
    && (forall t :: (t, v) in c'.acc ==> AccOk(c', t, v))
  }

  ghost predicate AddedRecords(c: State, c': State) {
    && (forall v, t :: (v, t) in c'.votes && (v, t) !in c.votes ==> VoteOk(c', v, t) && VoteLogOk(c', v, t))
    && (forall t :: t in c'.elect && (t in c.elect ==> c'.elect[t] != c.elect[t]) ==> ReignOk(c', t))
  }

  ghost predicate AddedMsgs(c: State, c': State) {
    && (forall m :: m in c'.voteReqs && m !in c.voteReqs ==> VoteReqOk(c', m))
    && (forall r :: r in c'.voteResps && r !in c.voteResps ==> VoteRespOk(c', r))
    && (forall m :: m in c'.appReqs && m !in c.appReqs ==> AppReqOk(c', m))
    && (forall r :: r in c'.appResps && r !in c.appResps ==> AppRespOk(c', r))
  }

  // ----- everything else keeps its part

  lemma KeepServer(c: State, c': State, v: nat, w: nat)
    requires Evolves(c, c', v) && w < |c.servers| && w != v
    requires BallotOk(c, w) && LogOk(c, w)
    ensures BallotOk(c', w) && LogOk(c', w)
  {
    GenuineGrows(c.servers[w].log, c.elect, c'.elect);
    forall g | g in c'.granted[w] ensures Counted(c', w, g) {
      assert Counted(c, w, g);
    }
  }

  lemma KeepVote(c: State, c': State, v: nat, w: nat, t: nat)
    requires Evolves(c, c', v) && (w, t) in c.votes && VoteOk(c, w, t)
    ensures VoteOk(c', w, t)
  {
    GenuineGrows(c.votes[(w, t)].log, c.elect, c'.elect);
  }

  lemma KeepReign(c: State, c': State, v: nat, t: nat)
    requires Evolves(c, c', v) && t in c.elect && c'.elect[t] == c.elect[t] && ReignOk(c, t)
    ensures ReignOk(c', t)
  {
    GenuineGrows(c.elect[t].log, c.elect, c'.elect);
    forall w | w in c'.elect[t].voters ensures VoterOk(c', w, t) {
      assert VoterOk(c, w, t);
    }
  }

  /** Growing a server's log or term loses nothing it had accepted. */
  lemma GrowAcc(c: State, c': State, v: nat)
    requires AcceptedOk(c) && v < |c.servers| == |c'.servers| && ElectGrows(c.elect, c'.elect)
    requires c.servers[v].log <= c'.servers[v].log && c.servers[v].term <= c'.servers[v].term
    ensures forall t :: (t, v) in c.acc && (t, v) in c'.acc && c'.acc[(t, v)] == c.acc[(t, v)] ==> AccOk(c', t, v)
  {
    forall t | (t, v) in c.acc && (t, v) in c'.acc && c'.acc[(t, v)] == c.acc[(t, v)] ensures AccOk(c', t, v) {
      assert AccOk(c, t, v);
      HoldsUpToGrows(c.elect, c'.elect, t, c.acc[(t, v)], c.servers[v].log, c.servers[v].term + 1,
                     c'.servers[v].log, c'.servers[v].term + 1);
    }
  }

  lemma KeepVoteLog(c: State, c': State, v: nat, w: nat, t: nat)
    requires Evolves(c, c', v) && (w, t) in c.votes && VoteOk(c, w, t) && VoteLogOk(c, w, t)
    ensures VoteLogOk(c', w, t)
  {
    if !(t in c'.elect && w !in c'.elect[t].voters) {
      var log := c.votes[(w, t)].log;
      forall u | u < t && (u, w) in c'.acc ensures HoldsUpTo(c'.elect, u, c'.acc[(u, w)], log, t) {
        HoldsUpToGrows(c.elect, c'.elect, u, c.acc[(u, w)], log, t, log, t);
      }
    }
  }

  lemma KeepVoteReq(c: State, c': State, v: nat, m: VoteReq)
    requires Evolves(c, c', v) && VoteReqOk(c, m)
    ensures VoteReqOk(c', m)
  {
  }

  lemma KeepAppReq(c: State, c': State, v: nat, m: AppendReq)
    requires Evolves(c, c', v) && AppReqOk(c, m)
    ensures AppReqOk(c', m)
  {
    var (log, log') := (c.elect[m.term].log, c'.elect[m.term].log);
    assert log <= log';
    assert log'[m.prevIdx..m.prevIdx + |m.entries|] == log[m.prevIdx..m.prevIdx + |m.entries|];
  }

  lemma KeepAppResp(c: State, c': State, v: nat, r: AppendResp)
    requires Evolves(c, c', v) && AppRespOk(c, r)
    ensures AppRespOk(c', r)
  {
  }

  lemma KeepMsgs(c: State, c': State, v: nat)
    requires MsgsOk(c) && Evolves(c, c', v) && AddedMsgs(c, c')
    ensures MsgsOk(c')
  {
    forall m | m in c'.voteReqs ensures VoteReqOk(c', m) {
      if m in c.voteReqs { KeepVoteReq(c, c', v, m); }
    }
    forall m | m in c'.appReqs ensures AppReqOk(c', m) {
      if m in c.appReqs { KeepAppReq(c, c', v, m); }
    }
    forall r | r in c'.voteResps ensures VoteRespOk(c', r) {
      assert r in c.voteResps ==> VoteRespOk(c, r);
    }
    forall r | r in c'.appResps ensures AppRespOk(c', r) {
      if r in c.appResps { KeepAppResp(c, c', v, r); }
    }
  }

  lemma FrameInv(c: State, c': State, v: nat)
    requires Inv(c) && Evolves(c, c', v)
    requires TouchedServer(c, c', v) && AddedRecords(c, c') && AddedMsgs(c, c')
    ensures Inv(c')
  {
    forall w | 0 <= w < |c'.servers| ensures BallotOk(c', w) && LogOk(c', w) {
      if w != v { KeepServer(c, c', v, w); }
    }
    forall w, t | (w, t) in c'.votes ensures VoteOk(c', w, t) && VoteLogOk(c', w, t) {
      if (w, t) in c.votes { KeepVote(c, c', v, w, t); KeepVoteLog(c, c', v, w, t); }
    }
    forall t | t in c'.elect ensures ReignOk(c', t) {
      if t in c.elect && c'.elect[t] == c.elect[t] { KeepReign(c, c', v, t); }
    }
    forall t, w | (t, w) in c'.acc ensures AccOk(c', t, w) {
      if w != v { GrowAcc(c, c', w); }
    }
    KeepMsgs(c, c', v);
  }
}
