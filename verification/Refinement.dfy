/**
 The steps of the cluster are the contracts of the server class: what a handler does to its
 server is what the corresponding action does to that server, and the others are left alone.
 */
module Refinement {
  import opened Basics
  import opened LogEntries
  import opened Raft
  import opened Cluster
  import opened RaftServers

  /** Only server `v` has changed, into `s`. */
  ghost predicate Becomes(c: State, c': State, v: nat, s: Server)
    requires v < |c.servers|
  {
    c'.servers == c.servers[v := s]
  }

  lemma VoteReqIsStep(c: State, m: VoteReq, priorityOk: bool)
    requires Enabled(c, DeliverVoteReq(m, priorityOk))
    ensures var (s, r) := DecideVote(UpdateTerm(c.servers[m.dst], m.term), m, priorityOk);
            var c' := Step(c, DeliverVoteReq(m, priorityOk));
            Becomes(c, c', m.dst, s) && c'.voteResps == c.voteResps + {r}
  {
    hide DecideVote;
  }

  lemma VoteRespIsStep(c: State, r: VoteResp, conf: LogEntry)
    requires Enabled(c, DeliverVoteResp(r, conf))
    ensures var s := c.servers[r.dst];
            Becomes(c, Step(c, DeliverVoteResp(r, conf)), r.dst,
                    if r.term > s.term then UpdateTerm(s, r.term)
                    else if CountsVote(s, r) then LeadIfElected(CountVote(s, r), conf)
                    else s)
  {
    hide BecomeLeader, UpdateTerm, CountVote;
  }

  lemma StartVoteIsStep(c: State, v: nat, conf: LogEntry)
    requires v < |c.servers|
    ensures var s := Candidacy(c.servers[v]);
            var c' := Step(c, StartVote(v, conf));
            && Becomes(c, c', v, LeadIfElected(s, conf))
            && c'.voteReqs == c.voteReqs + (set p | p in s.peers :: Ballot(s, p))
            && (Elected(s) ==> c'.voteReqs == c.voteReqs)
  {
    hide BecomeLeader, Ballot;
    assert |c.servers[v].peers| == 0 ==> c.servers[v].peers == map[];
  }

  lemma AppendReqIsStep(c: State, m: AppendReq, declined: bool, stopAfter: Option<nat>)
    requires Enabled(c, DeliverAppendReq(m, declined, stopAfter))
    ensures var (s, r) := HandleAppend(UpdateTerm(c.servers[m.dst], m.term), m, declined, stopAfter);
            var c' := Step(c, DeliverAppendReq(m, declined, stopAfter));
            && Becomes(c, c', m.dst, s)
            && c'.appResps == c.appResps + (if r.Some? then {r.value} else {})
  {
    hide HandleAppend, UpdateTerm;
    var s1 := UpdateTerm(c.servers[m.dst], m.term);
    assert c.servers[m.dst := s1][m.dst] == s1;
    if m.term <= c.servers[m.dst].term { SameTerm(c.servers[m.dst], m.term); }
  }

  lemma SameTerm(s: Server, term: nat)
    requires term <= s.term
    ensures UpdateTerm(s, term) == s
  {
  }

  lemma AppendRespIsStep(c: State, r: AppendResp, committed: nat)
    requires Enabled(c, DeliverAppendResp(r, committed))
    ensures var s := c.servers[r.dst];
            Becomes(c, Step(c, DeliverAppendResp(r, committed)), r.dst,
                    if r.term > s.term then UpdateTerm(s, r.term) else HandleAppendResp(s, r, committed))
  {
    hide HandleAppendResp, UpdateTerm;
  }

  lemma SendIsStep(c: State, v: nat, p: nat, count: nat)
    requires Enabled(c, SendAppend(v, p, count))
    ensures var c' := Step(c, SendAppend(v, p, count));
            && Becomes(c, c', v, SetNext(c.servers[v], p, NextFor(c.servers[v], p)))
            && c'.appReqs == c.appReqs + {BuildAppendReq(c.servers[v], p, count)}
  {
  }

  lemma ReconnectIsStep(c: State, v: nat, p: nat)
    requires Enabled(c, Reconnect(v, p))
    ensures Becomes(c, Step(c, Reconnect(v, p)), v, ResetPeer(c.servers[v], p))
  {
  }

  // ----- a client batch is a run of single stores

  function Stores(v: nat, entries: seq<LogEntry>, timestamp: nat): seq<Action> {
    if entries == [] then [] else [ClientStore(v, entries[0], timestamp)] + Stores(v, entries[1..], timestamp)
  }

  lemma {:induction false} BatchIsRun(c: State, v: nat, entries: seq<LogEntry>, timestamp: nat)
    returns (states: seq<State>)
    requires v < |c.servers| && c.servers[v].role == Leader
    ensures IsRun(states, Stores(v, entries, timestamp)) && states[0] == c
    ensures var c' := states[|states| - 1];
            var s := c.servers[v];
            && Becomes(c, c', v, s.(log := s.log + StampAll(entries, s.term, timestamp)))
            && ClientBatch(s, entries, timestamp)
               == RaisePrecommit(c'.servers[v], if entries == [] then 0 else |c'.servers[v].log|)
    decreases |entries|
  {
    var s := c.servers[v];
    var all := StampAll(entries, s.term, timestamp);
    if entries == [] {
      states := [c];
      assert s.log + all == s.log;
    } else {
      var e := Stamped(entries[0], s.term, timestamp);
      var a := ClientStore(v, entries[0], timestamp);
      var c1 := Step(c, a);
      assert c1.servers == c.servers[v := StoreEntry(s, e)];
      var rest := BatchIsRun(c1, v, entries[1..], timestamp);
      RunPrepend(c, a, rest, Stores(v, entries[1..], timestamp));
      states := [c] + rest;
      assert all == [e] + StampAll(entries[1..], s.term, timestamp);
      assert s.log + [e] + StampAll(entries[1..], s.term, timestamp) == s.log + all;
    }
  }

  /** The last index of a batch, 0 for an empty one. */
  function LastOf(s: Server, entries: seq<LogEntry>): nat {
    if entries == [] then 0 else |s.log| + |entries|
  }

  /** A client request and the commit of a server without peers that follows it. */
  lemma ClientReqIsRun(c: State, v: nat, entries: seq<LogEntry>, timestamp: nat)
    returns (states: seq<State>)
    requires v < |c.servers| && c.servers[v].role == Leader
    ensures IsRun(states, Stores(v, entries, timestamp) + [ClientDone(v, LastOf(c.servers[v], entries))])
    ensures states[0] == c
    ensures Becomes(c, states[|states| - 1], v, CommitIfAlone(ClientBatch(c.servers[v], entries, timestamp)))
  {
    hide Stores, CommitIfAlone;
    var stores := Stores(v, entries, timestamp);
    var before := BatchIsRun(c, v, entries, timestamp);
    var c1 := before[|before| - 1];
    var done := ClientDone(v, LastOf(c.servers[v], entries));
    assert c1.servers[v].log == c.servers[v].log + StampAll(entries, c.servers[v].term, timestamp);
    states := before + [Step(c1, done)];
    RunAppend(before, stores, done);
  }

  lemma RunAppend(states: seq<State>, actions: seq<Action>, a: Action)
    requires IsRun(states, actions) && Enabled(states[|states| - 1], a)
    ensures IsRun(states + [Step(states[|states| - 1], a)], actions + [a])
  {
    hide Step, Enabled;
    var (states', actions') := (states + [Step(states[|states| - 1], a)], actions + [a]);
    forall i | 0 <= i < |actions'| ensures Follows(states', actions', i) {
      if i < |actions| { assert Follows(states, actions, i); }
    }
  }
}
