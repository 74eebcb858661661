/**
 Catching up a follower: request and response rounds between a leader that stays leader and
 one follower, with no declined and no interrupted request, end with the follower holding the
 leader's log up to its pre-commit index.
 */
module CatchUp {
  import opened Basics
  import opened LogEntries
  import opened Quorums
  import opened Raft
  import opened Cluster
  import opened ClusterInv
  import opened ClusterSteps
  import opened ClusterTheorems
  import opened ClusterLead

  /** Same term at the same index means the same log up to there. */
  ghost predicate Match(a: Log, b: Log) {
    forall i :: 0 <= i < |a| && i < |b| && a[i].term == b[i].term ==> a[..i + 1] == b[..i + 1]
  }

  ghost predicate Ordered(log: Log, term: nat) {
    && (forall i :: 0 <= i < |log| ==> 1 <= log[i].term <= term)
    && (forall i, j :: 0 <= i <= j < |log| ==> log[i].term <= log[j].term)
  }

  /** Entries of the leader's term, with all that precedes them, are the leader's. */
  ghost predicate Owned(lead: Log, term: nat, log: Log) {
    forall i :: 0 <= i < |log| && log[i].term == term ==> log[..i + 1] <= lead
  }

  /** The next index does not point past what the leader may send; the source exits if it does. */
  predicate NextInRange(l: Server, p: nat) {
    p in l.peers && NextFor(l, p) <= l.precommit + 1
  }

  /** A leader whose entry at the pre-commit index is of its own term, and a follower not ahead in term. */
  ghost predicate Paired(l: Server, f: Server) {
    && l.role == Leader && 0 < l.precommit <= |l.log| && l.log[l.precommit - 1].term == l.term
    && NextInRange(l, f.id)
    && f.term <= l.term && (f.term == l.term ==> f.role != Leader)
    && Ordered(l.log, l.term) && Ordered(f.log, l.term)
    && Match(l.log, f.log) && Owned(l.log, l.term, f.log)
  }

  /**
   In every reachable state, a leader and another server are such a pair exactly if the server is
   not ahead in term and the leader's next index for it is in range.
   */
  lemma ReachablePair(n: nat, c: State, v: nat, w: nat)
    requires Reaches(n, c, c) && v < |c.servers| && w < |c.servers| && v != w
    requires c.servers[v].role == Leader
    ensures Paired(c.servers[v], c.servers[w]) <==>
            c.servers[w].term <= c.servers[v].term && NextInRange(c.servers[v], w)
  {
    hide Reaches, Inv, LeadInv, NextInRange;
    var (l, f) := (c.servers[v], c.servers[w]);
    ReachInv(n, c, c);
    ReachLeadInv(n, c);
    LeaderEntry(c, v);
    KnowsItself(c, w);
    if f.role == Leader && f.term == l.term { ElectionSafety(n, c, c, v, w); }
    forall i, j | 0 <= i <= j < |l.log| ensures 1 <= l.log[i].term <= l.log[j].term <= l.term {
      LogTermsOrdered(n, c, v, i, j);
    }
    forall i, j | 0 <= i <= j < |f.log| ensures 1 <= f.log[i].term <= f.log[j].term <= f.term {
      LogTermsOrdered(n, c, w, i, j);
    }
    forall i | 0 <= i < |l.log| && i < |f.log| && l.log[i].term == f.log[i].term
      ensures l.log[..i + 1] == f.log[..i + 1]
    {
      LogMatching(n, c, v, w, i);
    }
    OwnEntries(c, v, w);
  }

  lemma KnowsItself(c: State, w: nat)
    requires Inv(c) && w < |c.servers|
    ensures c.servers[w].id == w && c.servers[w].peers.Keys == Ids(|c.servers|) - {w}
  {
    assert BallotOk(c, w);
  }

  /** A leader's pre-commit index points at an entry of its own term. */
  lemma LeaderEntry(c: State, v: nat)
    requires Inv(c) && LeadInv(c) && v < |c.servers| && c.servers[v].role == Leader
    ensures var s := c.servers[v]; 0 < s.precommit <= |s.log| && s.log[s.precommit - 1].term == s.term
  {
    assert LogOk(c, v) && LeadOk(c, v);
    assert OwnTail(c.elect[c.servers[v].term], c.servers[v].term);
  }

  lemma OwnEntries(c: State, v: nat, w: nat)
    requires Inv(c) && v < |c.servers| && w < |c.servers| && c.servers[v].role == Leader
    ensures Owned(c.servers[v].log, c.servers[v].term, c.servers[w].log)
  {
    var (l, f) := (c.servers[v], c.servers[w]);
    assert LogOk(c, v) && LogOk(c, w);
    forall i | 0 <= i < |f.log| && f.log[i].term == l.term ensures f.log[..i + 1] <= l.log {
      assert GenuineAt(f.log, i, c.elect);
    }
  }

  // ----- one round

  /** The leader sends `count` entries, the follower answers, the leader takes the answer. */
  function Round(l: Server, f: Server, count: nat, committed: nat): (Server, Server)
    requires CanSend(l, f.id, count)
  {
    var req := BuildAppendReq(l, f.id, count);
    var (f', resp) := HandleAppend(UpdateTerm(f, req.term), req, false, None);
    var l1 := SetNext(l, f.id, NextFor(l, f.id));
    match resp
    case None => (l1, f')
    case Some(r) => (HandleAppendResp(l1, r, committed), f')
  }

  /** The follower has everything before the next index. */
  ghost predicate Aligned(l: Server, f: Server)
    requires l.precommit <= |l.log| && NextInRange(l, f.id)
  {
    l.log[..NextFor(l, f.id) - 1] <= f.log
  }

  lemma AlignedIffOkay(l: Server, f: Server)
    requires Paired(l, f)
    ensures var prev := NextFor(l, f.id) - 1;
            Aligned(l, f) <==> LogOkay(f.log, prev, TermAt(l.log, prev))
  {
    var prev := NextFor(l, f.id) - 1;
    if prev > 0 {
      if Aligned(l, f) {
        assert f.log[prev - 1] == l.log[..prev][prev - 1] == l.log[prev - 1];
      }
    }
  }

  /** Merging a slice of the leader's log either changes nothing or leaves exactly the leader's prefix. */
  lemma SliceMerge(lead: Log, log: Log, prev: nat, entries: seq<LogEntry>)
    requires Match(lead, log) && prev + |entries| <= |lead| && entries == lead[prev..prev + |entries|]
    requires lead[..prev] <= log
    ensures var log' := Merge(log, prev, entries);
            && lead[..prev + |entries|] <= log'
            && (log' == log || log' == lead[..prev + |entries|])
  {
    hide SkipCount;
    var k := SkipCount(log, prev, entries);
    assert lead[..prev + k] == log[..prev + k] by {
      if k > 0 {
        assert entries[k - 1] == lead[prev + k - 1];
        assert lead[prev + k - 1].term == log[prev + k - 1].term;
      }
    }
    assert entries[k..] == lead[prev + k..prev + |entries|];
  }

  /** A leader that only changes its view of the follower, and a follower that keeps or copies the leader's log. */
  lemma PairKept(l: Server, f: Server, l': Server, f': Server, n: nat)
    requires Paired(l, f) && n <= |l.log| && (f'.log == f.log || f'.log == l.log[..n])
    requires l'.role == Leader && l'.log == l.log && l'.term == l.term && l'.precommit == l.precommit
    requires f'.id == f.id && NextInRange(l', f.id)
    requires f'.term == l.term && f'.role != Leader
    ensures Paired(l', f')
  {
  }

  /** What an accepted round does to the two servers. */
  lemma AcceptedRound(l: Server, f: Server, count: nat, committed: nat)
    requires l.role == Leader && f.term <= l.term && (f.term == l.term ==> f.role != Leader)
    requires CanSend(l, f.id, count)
    requires LogOkay(f.log, NextFor(l, f.id) - 1, TermAt(l.log, NextFor(l, f.id) - 1))
    ensures NextFor(l, f.id) - 1 <= |f.log|
    ensures var prev := NextFor(l, f.id) - 1;
            var (l', f') := Round(l, f, count, committed);
            && f' == f.(term := l.term, role := Follower, log := Merge(f.log, prev, l.log[prev..prev + count]),
                        precommit := f'.precommit, quickCommit := f'.quickCommit, smCommit := f'.smCommit,
                        votedFor := f'.votedFor, votesGranted := f'.votesGranted,
                        votesResponded := f'.votesResponded, electionCompleted := f'.electionCompleted)
            && l' == l.(peers := l.peers[f.id := Peer(prev + count + 1, prev + count)], quickCommit := l'.quickCommit)
  {
    hide SkipCount, Merge, HandleAppend, RollbackCommit;
    var m := BuildAppendReq(l, f.id, count);
    var s := UpdateTerm(f, l.term);
    HandleAccept(s, m, None);
    assert m.entries[..|m.entries|] == m.entries;
  }

  /** The follower announces all it was sent, and commits as much of it as the leader has committed. */
  lemma AcceptedIndexes(s: Server, m: AppendReq)
    requires Accepts(s, m, false)
    ensures var s' := HandleAppend(s, m, false, None).0;
            && s'.precommit == Max(s.precommit, m.prevIdx + |m.entries|)
            && s'.quickCommit >= Min(m.commit, m.prevIdx + |m.entries|)
  {
    hide Merge, SkipCount;
  }

  lemma RoundIndexes(l: Server, f: Server, count: nat, committed: nat)
    requires Paired(l, f) && CanSend(l, f.id, count) && Aligned(l, f)
    ensures var (f', sent) := (Round(l, f, count, committed).1, NextFor(l, f.id) - 1 + count);
            f'.precommit >= sent && f'.quickCommit >= Min(l.quickCommit, sent)
  {
    hide HandleAppend, HandleAppendResp, Match, Ordered, Owned, LogOkay;
    AlignedIffOkay(l, f);
    var m := BuildAppendReq(l, f.id, count);
    assert Accepts(UpdateTerm(f, l.term), m, false) && |m.entries| == count;
    AcceptedIndexes(UpdateTerm(f, l.term), m);
  }

  lemma RoundAccepted(l: Server, f: Server, count: nat, committed: nat)
    requires Paired(l, f) && CanSend(l, f.id, count) && Aligned(l, f)
    ensures var (l', f') := Round(l, f, count, committed);
            && Paired(l', f')
            && NextFor(l', f.id) == NextFor(l, f.id) + count
            && Aligned(l', f')
            && l'.log == l.log && l'.precommit == l.precommit && f'.id == f.id
  {
    hide Round, Merge, Match, Ordered, Owned;
    var prev := NextFor(l, f.id) - 1;
    var (l', f') := Round(l, f, count, committed);
    AlignedIffOkay(l, f);
    AcceptedRound(l, f, count, committed);
    SliceMerge(l.log, f.log, prev, l.log[prev..prev + count]);
    PairKept(l, f, l', f', prev + count);
  }

  lemma RoundRejected(l: Server, f: Server, count: nat, committed: nat)
    requires Paired(l, f) && CanSend(l, f.id, count) && !Aligned(l, f)
    ensures var (l', f') := Round(l, f, count, committed);
            && Paired(l', f')
            && l'.peers[f.id].next == Min(|f.log|, NextFor(l, f.id) - 2) + 1
            && 0 < l'.peers[f.id].next < NextFor(l, f.id)
            && NextFor(l', f.id) == l'.peers[f.id].next
            && l'.log == l.log && l'.precommit == l.precommit && f'.log == f.log && f'.id == f.id
  {
    var (l', f') := Round(l, f, count, committed);
    AlignedIffOkay(l, f);
    PairKept(l, f, l', f', 0);
  }

  /** The follower's application declines the request. */
  function DeclinedRound(l: Server, f: Server, count: nat): (Server, Server)
    requires CanSend(l, f.id, count)
  {
    var req := BuildAppendReq(l, f.id, count);
    var (f', resp) := HandleAppend(UpdateTerm(f, req.term), req, true, None);
    var l1 := SetNext(l, f.id, NextFor(l, f.id));
    match resp
    case None => (l1, f')
    case Some(r) => (HandleAppendResp(l1, r, 0), f')
  }

  /** A declined request writes nothing and is asked again: the leader does not probe further back. */
  lemma DeclineIsAskedAgain(l: Server, f: Server, count: nat)
    requires Paired(l, f) && CanSend(l, f.id, count) && Aligned(l, f)
    ensures var (l', f') := DeclinedRound(l, f, count);
            && l'.peers[f.id].next == NextFor(l, f.id) && l'.peers[f.id].matched == l.peers[f.id].matched
            && l'.quickCommit == l.quickCommit && f'.log == f.log && f'.precommit == f.precommit
            && f'.quickCommit == f.quickCommit
  {
    hide Match, Ordered, Owned, WriteEntries, LogOkay;
    AlignedIffOkay(l, f);
  }

  /** A follower that stops while it writes refuses, so that the leader steps one entry back. */
  lemma StopStepsBack(s: Server, m: AppendReq, stopAfter: nat)
    requires Accepts(s, m, false) && m.prevIdx <= |s.log| && Stops(s.log, m, Some(stopAfter))
    ensures var (s', r) := HandleAppend(s, m, false, Some(stopAfter));
            && r.Some? && !r.value.accepted && Rewound(m.prevIdx + 1, r.value) == m.prevIdx
            && s'.precommit == s.precommit && s'.log[..m.prevIdx] == s.log[..m.prevIdx]
  {
    hide SkipCount;
  }

  // ----- whole catch-up

  /** Rounds left at most: probing down to 1, then sending the whole log. */
  ghost function Distance(l: Server, f: Server): nat
    requires Paired(l, f)
  {
    if Aligned(l, f) then l.precommit + 1 - NextFor(l, f.id) else l.precommit + 1 + NextFor(l, f.id)
  }

  /** Each round carries at least one entry while the peer is behind, as a batch with a hint of 0 or more does. */
  ghost predicate IsCatchUp(l: Server, f: Server, counts: seq<nat>, committed: seq<nat>)
    requires |committed| == |counts|
    decreases |counts|
  {
    counts == [] ||
    (&& CanSend(l, f.id, counts[0])
     && (NextFor(l, f.id) <= l.precommit ==> counts[0] > 0)
     && var (l', f') := Round(l, f, counts[0], committed[0]);
        IsCatchUp(l', f', counts[1..], committed[1..]))
  }

  ghost function AfterCatchUp(l: Server, f: Server, counts: seq<nat>, committed: seq<nat>): (Server, Server)
    requires |committed| == |counts| && IsCatchUp(l, f, counts, committed)
    decreases |counts|
  {
    if counts == [] then (l, f)
    else
      var (l', f') := Round(l, f, counts[0], committed[0]);
      AfterCatchUp(l', f', counts[1..], committed[1..])
  }

  lemma RoundProgress(l: Server, f: Server, count: nat, committed: nat)
    requires Paired(l, f) && CanSend(l, f.id, count)
    requires NextFor(l, f.id) <= l.precommit ==> count > 0
    ensures var (l', f') := Round(l, f, count, committed);
            && Paired(l', f') && l'.log == l.log && l'.precommit == l.precommit
            && (Distance(l', f') < Distance(l, f) || (Distance(l', f') == Distance(l, f) == 0))
  {
    hide Round, Match, Ordered, Owned;
    if Aligned(l, f) { RoundAccepted(l, f, count, committed); } else { RoundRejected(l, f, count, committed); }
  }

  /** Nothing is left to send only when the follower has all of it and nothing else. */
  lemma CaughtUp(l: Server, f: Server)
    requires Paired(l, f) && Distance(l, f) == 0
    ensures l.log[..l.precommit] <= f.log <= l.log
  {
    var n := l.precommit;
    assert l.log[..n] <= f.log;
    assert f.log[n - 1] == l.log[..n][n - 1];
    assert f.log[n - 1].term <= f.log[|f.log| - 1].term;
    assert f.log[..|f.log| - 1 + 1] == f.log;
  }

  lemma {:induction false} CatchUpConverges(l: Server, f: Server, counts: seq<nat>, committed: seq<nat>)
    requires Paired(l, f) && |committed| == |counts| && IsCatchUp(l, f, counts, committed)
    requires |counts| >= Distance(l, f)
    ensures var (l', f') := AfterCatchUp(l, f, counts, committed);
            && l'.log == l.log && l.log[..l.precommit] <= f'.log <= l.log
            && (l.precommit == |l.log| ==> f'.log == l.log)
    decreases |counts|
  {
    if counts == [] {
      CaughtUp(l, f);
    } else {
      var (l', f') := Round(l, f, counts[0], committed[0]);
      RoundProgress(l, f, counts[0], committed[0]);
      CatchUpConverges(l', f', counts[1..], committed[1..]);
    }
  }

  /** Catch-up can always go on: there is a schedule of every length. */
  lemma {:induction false} CatchUpExists(l: Server, f: Server, n: nat) returns (counts: seq<nat>, committed: seq<nat>)
    requires Paired(l, f)
    ensures |counts| == |committed| == n && IsCatchUp(l, f, counts, committed)
    decreases n
  {
    if n == 0 {
      counts, committed := [], [];
    } else {
      var count := if NextFor(l, f.id) <= l.precommit then 1 else 0;
      RoundProgress(l, f, count, 0);
      var (l', f') := Round(l, f, count, 0);
      var rest, zeros := CatchUpExists(l', f', n - 1);
      counts, committed := [count] + rest, [0] + zeros;
      assert counts[1..] == rest && committed[1..] == zeros;
    }
  }
}
