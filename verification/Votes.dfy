/**
 When a vote is given. The comparison of logs is a total order, so among any servers there is one
 whom all the others would vote for.
 */
module Votes {
  import opened LogEntries
  import opened Raft
  import opened Cluster

  // ----- the comparison

  /** The first log is newer: a later last term, or the same one and more entries. */
  predicate Newer(a: Log, b: Log) {
    LastTerm(a) > LastTerm(b) || (LastTerm(a) == LastTerm(b) && |a| > |b|)
  }

  /** Of any two logs one is up to date with the other, and both are only if neither is newer. */
  lemma OneIsUpToDate(a: Log, b: Log)
    ensures UpToDate(LastTerm(a), |a|, b) || UpToDate(LastTerm(b), |b|, a)
    ensures UpToDate(LastTerm(a), |a|, b) && UpToDate(LastTerm(b), |b|, a) <==>
            LastTerm(a) == LastTerm(b) && |a| == |b|
    ensures UpToDate(LastTerm(a), |a|, b) <==> !Newer(b, a)
  {
  }

  /** The vote of a server in a term, before a request of that term is answered. */
  function VoteIn(s: Server, term: nat): int {
    if term > s.term then -1 else s.votedFor
  }

  /**
   A request is granted exactly if its term is not older, the candidate's priority suffices, no
   other candidate has the vote, and the voter's log is not newer than the candidate's.
   */
  lemma GrantedIff(s: Server, cand: Log, m: VoteReq, priorityOk: bool)
    requires m.lastTerm == LastTerm(cand) && m.lastIdx == |cand|
    ensures DecideVote(UpdateTerm(s, m.term), m, priorityOk).1.accepted <==>
            && m.term >= s.term && priorityOk
            && (VoteIn(s, m.term) == -1 || VoteIn(s, m.term) == m.src)
            && !Newer(s.log, cand)
  {
  }

  /** A vote once given is not given to anybody else, and repeating the request repeats the answer. */
  lemma VoteIsKept(s: Server, m: VoteReq, m': VoteReq)
    requires m'.term == m.term && m.src != m'.src
    ensures var (s1, r) := DecideVote(UpdateTerm(s, m.term), m, true);
            && (r.accepted ==> !DecideVote(UpdateTerm(s1, m'.term), m', true).1.accepted)
            && DecideVote(UpdateTerm(s1, m.term), m, true) == (s1, r)
  {
  }

  // ----- the best candidate

  /** A voter ahead in term answers with its term, which ends the candidacy. */
  lemma OldBallotEndsCandidacy(s: Server, candidate: Server, priorityOk: bool)
    requires candidate.term < s.term
    ensures var m := Ballot(candidate, s.id);
            var (s', r) := DecideVote(UpdateTerm(s, m.term), m, priorityOk);
            && s' == s && !r.accepted && r.dst == candidate.id && r.reqTerm == candidate.term
            && UpdateTerm(candidate, r.term).term == s.term && UpdateTerm(candidate, r.term).role == Follower
  {
  }

  /** A newer term begins with an open election in which nobody has answered yet. */
  lemma NewTermStartsOver(s: Server, term: nat, r: VoteResp)
    requires s.term < term && r.term == term
    ensures var s' := UpdateTerm(s, term);
            && s'.role == Follower && CountsVote(s', r)
            && CountVote(s', r).votesResponded == 1 && CountVote(s', r).votesGranted == if r.accepted then 1 else 0
  {
  }

  /** Nobody in the set has a newer log than server v. */
  ghost predicate Best(c: State, some: set<nat>, v: nat) {
    v < |c.servers| && v in some && forall w :: w in some && w < |c.servers| ==> !Newer(c.servers[w].log, c.servers[v].log)
  }

  lemma {:induction false} BestExists(c: State, some: set<nat>) returns (v: nat)
    requires some != {} && forall w :: w in some ==> w < |c.servers|
    ensures Best(c, some, v)
    decreases |some|
  {
    v :| v in some;
    var rest := some - {v};
    if rest == {} {
      assert some == rest + {v};
    } else {
      var u := BestExists(c, rest);
      if Newer(c.servers[u].log, c.servers[v].log) { v := u; }
    }
  }

  /** In a term newer than all of theirs, every server of the set grants the best one its vote. */
  lemma BestIsGranted(c: State, some: set<nat>, v: nat, term: nat, w: nat)
    requires Best(c, some, v) && w in some && w < |c.servers| && c.servers[w].term < term
    ensures var m := Ballot(c.servers[v].(term := term), w);
            DecideVote(UpdateTerm(c.servers[w], term), m, true).1.accepted
  {
    GrantedIff(c.servers[w], c.servers[v].log, Ballot(c.servers[v].(term := term), w), true);
  }
}
