/**
 A cluster of n servers (ids 0 to n - 1, all voting) that exchange messages over a network
 that may lose, repeat and reorder requests and append responses. A vote response reaches
 its handler at most once per request, as the RPC layer invokes each handler once.
 */
module Cluster {
  import opened Basics
  import opened LogEntries
  import opened Quorums
  import opened Raft

  /** A vote together with the voter's log at that moment. */
  datatype Vote = Vote(cand: nat, log: Log)

  /** One term's leadership: `base` is the log at the election, `log` all the leader stored so far. */
  datatype Reign = Reign(leader: nat, voters: set<nat>, base: Log, log: Log)

  datatype RawState = RawState(
    servers: seq<Server>,
    voteReqs: set<VoteReq>,
    voteResps: set<VoteResp>,
    appReqs: set<AppendReq>,
    appResps: set<AppendResp>,
    answered: set<(nat, nat, nat)>,      // (candidate, voter, term) of consumed vote responses
    // history, written but never read by the servers
    granted: seq<set<nat>>,              // voters counted by each server in its current term
    votes: map<(nat, nat), Vote>,        // (voter, term) to vote
    elect: map<nat, Reign>,              // term to leadership
    acc: map<(nat, nat), nat>)           // (term, server) to highest index accepted in that term

  type State = c: RawState | |c.servers| == |c.granted|
    witness RawState([], {}, {}, {}, {}, {}, [], map[], map[], map[])

  datatype Action =
    | StartVote(v: nat, conf: LogEntry)
    | DeliverVoteReq(vreq: VoteReq, priorityOk: bool)
    | DeliverVoteResp(vresp: VoteResp, conf: LogEntry)
    | ClientStore(v: nat, e: LogEntry, timestamp: nat)
    | ClientDone(v: nat, last: nat)
    | Reconnect(v: nat, peer: nat)
    | SendAppend(v: nat, peer: nat, count: nat)
    | DeliverAppendReq(areq: AppendReq, declined: bool, stopAfter: Option<nat>)
    | DeliverAppendResp(aresp: AppendResp, committed: nat)
    | StepDown(v: nat)
    | PreVote(v: nat)
    | CrashRestart(v: nat, lastCommit: nat)

  function Fresh(id: nat, n: nat): Server {
    Server(id, 0, -1, Follower, [], 0, 0, 0, 0, 0, true, map p | p in Ids(n) - {id} :: Peer(0, 0))
  }

  function Init(n: nat): State {
    RawState(seq(n, (i: nat) => Fresh(i, n)), {}, {}, {}, {}, {}, seq(n, i => {}), map[], map[], map[])
  }

  // ----- parts of steps

  function SetServer(c: State, v: nat, s: Server): State
    requires v < |c.servers|
  {
    c.(servers := c.servers[v := s])
  }

  function BumpTerm(c: State, v: nat, term: nat): State
    requires v < |c.servers|
  {
    if term > c.servers[v].term then
      SetServer(c, v, UpdateTerm(c.servers[v], term)).(granted := c.granted[v := {}])
    else c
  }

  function Stand(c: State, v: nat): State
    requires v < |c.servers|
  {
    var s := Candidacy(c.servers[v]);
    SetServer(c, v, s).(
      granted := c.granted[v := {v}],
      votes := c.votes[(v, s.term) := Vote(v, s.log)],
      voteReqs := c.voteReqs + set p | p in s.peers :: Ballot(s, p))
  }

  function Crown(c: State, v: nat, conf: LogEntry): State
    requires v < |c.servers|
  {
    var s := c.servers[v];
    var s' := BecomeLeader(s.(electionCompleted := true), conf);
    SetServer(c, v, s').(
      elect := c.elect[s.term := Reign(v, c.granted[v], s.log, s'.log)],
      acc := c.acc[(s.term, v) := |s'.log|])
  }

  function CrownIfElected(c: State, v: nat, conf: LogEntry): State
    requires v < |c.servers|
  {
    if Elected(c.servers[v]) then Crown(c, v, conf) else c
  }

  function AnswerVote(c: State, m: VoteReq, priorityOk: bool): State
    requires m.dst < |c.servers|
  {
    var s := c.servers[m.dst];
    var (s', r) := DecideVote(s, m, priorityOk);
    SetServer(c, m.dst, s').(
      voteResps := c.voteResps + {r},
      votes := if r.accepted && (m.dst, s.term) !in c.votes
               then c.votes[(m.dst, s.term) := Vote(m.src, s.log)] else c.votes)
  }

  function TakeVote(c: State, r: VoteResp): State
    requires r.dst < |c.servers|
  {
    var s := c.servers[r.dst];
    if CountsVote(s, r) then
      SetServer(c, r.dst, CountVote(s, r)).(
        answered := c.answered + {(r.dst, r.src, r.reqTerm)},
        granted := if r.accepted then c.granted[r.dst := c.granted[r.dst] + {r.src}] else c.granted)
    else c.(answered := c.answered + {(r.dst, r.src, r.reqTerm)})
  }

  /** A leader's log and its reign grow together. */
  function LeaderStore(c: State, v: nat, e: LogEntry): State
    requires v < |c.servers|
  {
    var s := StoreEntry(c.servers[v], e);
    SetServer(c, v, s).(
      elect := if s.term in c.elect then c.elect[s.term := c.elect[s.term].(log := s.log)] else c.elect,
      acc := c.acc[(s.term, v) := |s.log|])
  }

  function RecordAppend(c: State, m: AppendReq, s: Server, r: Option<AppendResp>): State
    requires m.dst < |c.servers|
  {
    var (key, reached) := ((m.term, m.dst), m.prevIdx + |m.entries|);
    SetServer(c, m.dst, s).(
      appResps := if r.Some? then c.appResps + {r.value} else c.appResps,
      acc := if r.Some? && r.value.accepted
             then c.acc[key := Max(if key in c.acc then c.acc[key] else 0, reached)]
             else c.acc)
  }

  function AnswerAppend(c: State, m: AppendReq, declined: bool, stopAfter: Option<nat>): State
    requires m.dst < |c.servers|
  {
    var (s, r) := HandleAppend(c.servers[m.dst], m, declined, stopAfter);
    RecordAppend(c, m, s, r)
  }

  function TakeVoteResp(c: State, r: VoteResp, conf: LogEntry): State
    requires r.dst < |c.servers|
  {
    if r.term > c.servers[r.dst].term then
      BumpTerm(c, r.dst, r.term).(answered := c.answered + {(r.dst, r.src, r.reqTerm)})
    else if CountsVote(c.servers[r.dst], r) then CrownIfElected(TakeVote(c, r), r.dst, conf)
    else TakeVote(c, r)
  }

  function Send(c: State, v: nat, p: nat, count: nat): State
    requires v < |c.servers| && CanSend(c.servers[v], p, count)
  {
    var s := c.servers[v];
    SetServer(c, v, SetNext(s, p, NextFor(s, p))).(appReqs := c.appReqs + {BuildAppendReq(s, p, count)})
  }

  function TakeAppendResp(c: State, r: AppendResp, committed: nat): State
    requires r.dst < |c.servers| && (r.accepted ==> 0 < r.next)
  {
    if r.term > c.servers[r.dst].term then BumpTerm(c, r.dst, r.term)
    else SetServer(c, r.dst, HandleAppendResp(c.servers[r.dst], r, committed))
  }

  function Reboot(c: State, v: nat, lastCommit: nat): State
    requires v < |c.servers|
  {
    SetServer(c, v, Restart(c.servers[v], lastCommit)).(granted := c.granted[v := {}])
  }

  // ----- steps

  predicate Enabled(c: State, a: Action) {
    match a
    case StartVote(v, _) => v < |c.servers|
    case DeliverVoteReq(m, _) => m in c.voteReqs && m.dst < |c.servers|
    case DeliverVoteResp(r, _) =>
      r in c.voteResps && r.dst < |c.servers| && (r.dst, r.src, r.reqTerm) !in c.answered
    case ClientStore(v, _, _) =>
      v < |c.servers| && c.servers[v].role == Leader
    case ClientDone(v, last) => v < |c.servers| && c.servers[v].role == Leader && last <= |c.servers[v].log|
    case Reconnect(v, p) => v < |c.servers| && c.servers[v].role == Leader && p in c.servers[v].peers
    case SendAppend(v, p, k) => v < |c.servers| && CanSend(c.servers[v], p, k)
    case DeliverAppendReq(m, _, _) => m in c.appReqs && m.dst < |c.servers|
    case DeliverAppendResp(r, _) =>
      r in c.appResps && r.dst < |c.servers| && (r.accepted ==> 0 < r.next)
    case StepDown(v) => v < |c.servers|
    case PreVote(v) => v < |c.servers| && c.servers[v].role != Leader
    case CrashRestart(v, _) => v < |c.servers|
  }

  function Step(c: State, a: Action): State
    requires Enabled(c, a)
  {
    match a
    case StartVote(v, conf) => CrownIfElected(Stand(c, v), v, conf)
    case DeliverVoteReq(m, priorityOk) => AnswerVote(BumpTerm(c, m.dst, m.term), m, priorityOk)
    case DeliverVoteResp(r, conf) => TakeVoteResp(c, r, conf)
    case ClientStore(v, e, ts) => LeaderStore(c, v, Stamped(e, c.servers[v].term, ts))
    case ClientDone(v, last) => SetServer(c, v, CommitIfAlone(RaisePrecommit(c.servers[v], last)))
    case Reconnect(v, p) => SetServer(c, v, ResetPeer(c.servers[v], p))
    case SendAppend(v, p, k) => Send(c, v, p, k)
    case DeliverAppendReq(m, declined, stop) =>
      AnswerAppend(BumpTerm(c, m.dst, m.term), m, declined, stop)
    case DeliverAppendResp(r, committed) => TakeAppendResp(c, r, committed)
    case StepDown(v) => SetServer(c, v, BecomeFollower(c.servers[v]))
    case PreVote(v) => SetServer(c, v, c.servers[v].(role := Candidate))
    case CrashRestart(v, lastCommit) => Reboot(c, v, lastCommit)
  }

  /** State i + 1 of a run is what action i makes of state i. */
  predicate Follows(states: seq<State>, actions: seq<Action>, i: nat)
    requires i < |actions| && |states| == |actions| + 1
  {
    Enabled(states[i], actions[i]) && states[i + 1] == Step(states[i], actions[i])
  }

  /** A run: states linked by enabled actions. */
  predicate IsRun(states: seq<State>, actions: seq<Action>) {
    |states| == |actions| + 1 && forall i :: 0 <= i < |actions| ==> Follows(states, actions, i)
  }

  /** A run of a cluster of size n leads through c to c'. */
  ghost predicate Reaches(n: nat, c: State, c': State) {
    exists states: seq<State>, actions: seq<Action>, i: nat ::
      && IsRun(states, actions) && states[0] == Init(n)
      && i < |states| && states[i] == c && states[|states| - 1] == c'
  }

  lemma RunPrepend(c: State, a: Action, states: seq<State>, actions: seq<Action>)
    requires IsRun(states, actions) && Enabled(c, a) && states[0] == Step(c, a)
    ensures IsRun([c] + states, [a] + actions)
  {
    hide Step, Enabled;
    forall i | 0 <= i < |actions| + 1 ensures Follows([c] + states, [a] + actions, i) {
      if i > 0 { assert Follows(states, actions, i - 1); }
    }
  }
}
