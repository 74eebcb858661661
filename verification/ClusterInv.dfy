/** The inductive invariant of the cluster. */
module ClusterInv {
  import opened LogEntries
  import opened Quorums
  import opened Raft
  import opened Cluster

  ghost predicate Bounded(log: Log, term: nat) {
    forall i :: 0 <= i < |log| ==> log[i].term <= term
  }

  /** Every entry, with all that precedes it, was stored by the leader of the entry's term. */
  ghost predicate Genuine(log: Log, elect: map<nat, Reign>) {
    forall i :: 0 <= i < |log| ==> GenuineAt(log, i, elect)
  }

  ghost predicate GenuineAt(log: Log, i: nat, elect: map<nat, Reign>)
    requires i < |log|
  {
    log[i].term in elect && log[..i + 1] <= elect[log[i].term].log
  }

  // ----- servers

  ghost predicate VotedFor(c: State, v: nat, term: nat, cand: nat) {
    (v, term) in c.votes && c.votes[(v, term)].cand == cand
  }

  ghost predicate Counted(c: State, v: nat, g: nat)
    requires v < |c.servers|
  {
    var term := c.servers[v].term;
    g < |c.servers| && VotedFor(c, g, term, v) && (g == v || (v, g, term) in c.answered)
  }

  ghost predicate BallotOk(c: State, v: nat)
    requires v < |c.servers|
  {
    var s := c.servers[v];
    && s.id == v
    && s.peers.Keys == Ids(|c.servers|) - {v}
    && -1 <= s.votedFor < |c.servers|
    && ((v, s.term) in c.votes <==> s.votedFor >= 0)
    && (s.votedFor >= 0 ==> VotedFor(c, v, s.term, s.votedFor))
    && |c.granted[v]| == s.votesGranted
    && forall g :: g in c.granted[v] ==> Counted(c, v, g)
  }

  ghost predicate LogOk(c: State, v: nat)
    requires v < |c.servers|
  {
    var s := c.servers[v];
    && Genuine(s.log, c.elect)
    && Bounded(s.log, s.term)
    && (s.role == Leader ==>
          && s.term in c.elect
          && c.elect[s.term].leader == v
          && c.elect[s.term].log == s.log
          && s.precommit <= |s.log|
          && (s.term, v) in c.acc && c.acc[(s.term, v)] == |s.log|)
  }

  // ----- votes and reigns

  ghost predicate NoNewer(log: Log, voter: Log) {
    UpToDate(LastTerm(log), |log|, voter)
  }

  ghost predicate VoteOk(c: State, v: nat, term: nat)
    requires (v, term) in c.votes
  {
    var vote := c.votes[(v, term)];
    && v < |c.servers| && vote.cand < |c.servers|
    && 1 <= term <= c.servers[v].term
    && term <= c.servers[vote.cand].term
    && Genuine(vote.log, c.elect)
    && (term !in c.elect && c.servers[vote.cand].term == term ==> NoNewer(c.servers[vote.cand].log, vote.log))
  }

  ghost predicate VoterOk(c: State, v: nat, term: nat)
    requires term in c.elect
  {
    VotedFor(c, v, term, c.elect[term].leader) && NoNewer(c.elect[term].base, c.votes[(v, term)].log)
  }

  ghost predicate ReignOk(c: State, term: nat)
    requires term in c.elect
  {
    var e := c.elect[term];
    && 1 <= term
    && e.leader < |c.servers|
    && term <= c.servers[e.leader].term
    && (term == c.servers[e.leader].term ==> c.servers[e.leader].electionCompleted)
    && e.base < e.log
    && Bounded(e.base, term - 1)
    && Bounded(e.log, term)
    && Genuine(e.log, c.elect)
    && Majority(e.voters, Ids(|c.servers|))
    && forall v :: v in e.voters ==> VoterOk(c, v, term)
  }

  // ----- messages

  ghost predicate VoteReqOk(c: State, m: VoteReq) {
    && m.src < |c.servers| && m.dst < |c.servers| && m.src != m.dst
    && 1 <= m.term <= c.servers[m.src].term
    && (m.term !in c.elect && c.servers[m.src].term == m.term ==>
          m.lastTerm == LastTerm(c.servers[m.src].log) && m.lastIdx == |c.servers[m.src].log|)
  }

  ghost predicate VoteRespOk(c: State, r: VoteResp) {
    && r.src < |c.servers| && r.dst < |c.servers| && r.src != r.dst
    && (r.accepted ==> r.reqTerm == r.term && VotedFor(c, r.src, r.term, r.dst))
  }

  ghost predicate AppReqOk(c: State, m: AppendReq) {
    && m.src < |c.servers| && m.dst < |c.servers|
    && m.term in c.elect
    && m.prevIdx + |m.entries| <= |c.elect[m.term].log|
    && m.entries == c.elect[m.term].log[m.prevIdx..m.prevIdx + |m.entries|]
    && m.prevTerm == TermAt(c.elect[m.term].log, m.prevIdx)
  }

  ghost predicate AppRespOk(c: State, r: AppendResp) {
    && r.src < |c.servers| && r.dst < |c.servers|
    && (r.accepted ==> 0 < r.next && (r.term, r.src) in c.acc && r.next - 1 <= c.acc[(r.term, r.src)])
  }

  // ----- acceptances

  /** A leader elected strictly between the two terms did not have `x`. */
  ghost predicate Overruled(elect: map<nat, Reign>, x: Log, lo: nat, hi: nat) {
    exists t :: t in elect && lo < t < hi && !(x <= elect[t].base)
  }

  /** `log` still has what was accepted in term `t`, unless a later leader lacked it. */
  ghost predicate Holds(elect: map<nat, Reign>, t: nat, n: nat, log: Log, hi: nat)
    requires t in elect && n <= |elect[t].log|
  {
    elect[t].log[..n] <= log || Overruled(elect, elect[t].log[..n], t, hi)
  }

  ghost predicate HoldsUpTo(elect: map<nat, Reign>, t: nat, k: nat, log: Log, hi: nat) {
    && t in elect
    && k <= |elect[t].log|
    && forall n :: 0 <= n <= k ==> Holds(elect, t, n, log, hi)
  }

  ghost predicate AccOk(c: State, t: nat, v: nat)
    requires (t, v) in c.acc
  {
    && v < |c.servers|
    && t <= c.servers[v].term
    && HoldsUpTo(c.elect, t, c.acc[(t, v)], c.servers[v].log, c.servers[v].term + 1)
  }

  /** Votes cast before the term's election reflect what the voter had accepted earlier. */
  ghost predicate VoteLogOk(c: State, v: nat, term: nat)
    requires (v, term) in c.votes
  {
    (term in c.elect && v !in c.elect[term].voters) ||
    forall t :: t < term && (t, v) in c.acc ==>
      HoldsUpTo(c.elect, t, c.acc[(t, v)], c.votes[(v, term)].log, term)
  }

  // ----- the invariant

  ghost predicate ServersOk(c: State) {
    forall v :: 0 <= v < |c.servers| ==> BallotOk(c, v) && LogOk(c, v)
  }

  ghost predicate VotesOk(c: State) {
    forall v, t :: (v, t) in c.votes ==> VoteOk(c, v, t)
  }

  ghost predicate ReignsOk(c: State) {
    forall t :: t in c.elect ==> ReignOk(c, t)
  }

  ghost predicate MsgsOk(c: State) {
    && (forall m :: m in c.voteReqs ==> VoteReqOk(c, m))
    && (forall r :: r in c.voteResps ==> VoteRespOk(c, r))
    && (forall m :: m in c.appReqs ==> AppReqOk(c, m))
    && (forall r :: r in c.appResps ==> AppRespOk(c, r))
  }

  ghost predicate AcceptedOk(c: State) {
    && (forall t, v :: (t, v) in c.acc ==> AccOk(c, t, v))
    && (forall v, t :: (v, t) in c.votes ==> VoteLogOk(c, v, t))
  }

  ghost predicate Inv(c: State) {
    ServersOk(c) && VotesOk(c) && ReignsOk(c) && MsgsOk(c) && AcceptedOk(c)
  }
}
