/**
 Stamping client entries with the current term: client threads under the client lock against
 one protocol thread that changes term and role, as interleaved atomic steps. Starting a vote
 writes term and role without the client lock.
 */
module ClientStamp {
  import opened Basics
  import opened LogEntries
  import opened Raft

  /** The protocol thread; at most one runs at a time, under the server lock. */
  datatype Protocol =
    | Idle
    | TermWanted(term: nat) | TermLocked(term: nat) | TermRole(term: nat) | TermDone   // update_term
    | FollowWanted | FollowLocked | FollowDone                                         // become_follower
    | LeadWanted | LeadLocked | LeadDone                                               // become_leader
    | VoteBegun | VoteTerm                                                             // initiate_vote

  datatype Client = Away | Locked | Read(term: nat) | Checked(term: nat)

  datatype Owner = ByProtocol | ByClient(i: nat)

  /** A stored client entry: its stamp, and the server's term, the term it last won and its role at that moment. */
  datatype Stored = Stored(stamp: nat, term: nat, led: nat, role: Role)

  datatype State = State(
    role: Role, term: nat,
    led: nat,                 // history: the term in which this server last became leader
    cliLock: Option<Owner>,
    protocol: Protocol, clients: seq<Client>, stored: seq<Stored>)

  datatype ProtocolOp =
    | WantTerm(term: nat) | LockTerm | WriteTermRole | WriteTerm | UnlockTerm
    | WantFollow | LockFollow | WriteFollower | UnlockFollow
    | WantLead | LockLead | WriteLeader | UnlockLead
    | BeginVote | IncTerm | WriteCandidate

  datatype ClientOp = LockCli | ReadTerm | CheckRole | Store | UnlockCli

  datatype Action = P(pop: ProtocolOp) | C(i: nat, cop: ClientOp)

  function Init(clients: nat, term: nat): State {
    State(Follower, term, 0, None, Idle, seq(clients, _ => Away), [])
  }

  predicate CanProtocol(s: State, op: ProtocolOp) {
    match op
    case WantTerm(t) => s.protocol.Idle? && t > s.term
    case LockTerm => s.protocol.TermWanted? && s.cliLock.None?
    case WriteTermRole => s.protocol.TermLocked?
    case WriteTerm => s.protocol.TermRole?
    case UnlockTerm => s.protocol.TermDone?
    case WantFollow => s.protocol.Idle?
    case LockFollow => s.protocol.FollowWanted? && s.cliLock.None?
    case WriteFollower => s.protocol.FollowLocked?
    case UnlockFollow => s.protocol.FollowDone?
    case WantLead => s.protocol.Idle?
    case LockLead => s.protocol.LeadWanted? && s.cliLock.None?
    case WriteLeader => s.protocol.LeadLocked?
    case UnlockLead => s.protocol.LeadDone?
    case BeginVote => s.protocol.Idle?
    case IncTerm => s.protocol.VoteBegun?
    case WriteCandidate => s.protocol.VoteTerm?
  }

  function RunProtocol(s: State, op: ProtocolOp): State
    requires CanProtocol(s, op)
  {
    match op
    case WantTerm(t) => s.(protocol := TermWanted(t))
    case LockTerm => s.(protocol := TermLocked(s.protocol.term), cliLock := Some(ByProtocol))
    case WriteTermRole => s.(protocol := TermRole(s.protocol.term), role := Follower)
    case WriteTerm => s.(protocol := TermDone, term := s.protocol.term)
    case UnlockTerm => s.(protocol := FollowWanted, cliLock := None)
    case WantFollow => s.(protocol := FollowWanted)
    case LockFollow => s.(protocol := FollowLocked, cliLock := Some(ByProtocol))
    case WriteFollower => s.(protocol := FollowDone, role := Follower)
    case UnlockFollow => s.(protocol := Idle, cliLock := None)
    case WantLead => s.(protocol := LeadWanted)
    case LockLead => s.(protocol := LeadLocked, cliLock := Some(ByProtocol))
    case WriteLeader => s.(protocol := LeadDone, role := Leader, led := s.term)
    case UnlockLead => s.(protocol := Idle, cliLock := None)
    case BeginVote => s.(protocol := VoteBegun)
    case IncTerm => s.(protocol := VoteTerm, term := s.term + 1)
    case WriteCandidate => s.(protocol := Idle, role := Candidate)
  }

  predicate CanClient(s: State, i: nat, op: ClientOp) {
    && i < |s.clients|
    && match op
       case LockCli => s.clients[i].Away? && s.cliLock.None?
       case ReadTerm => s.clients[i].Locked?
       case CheckRole => s.clients[i].Read?
       case Store => s.clients[i].Checked?
       case UnlockCli => s.clients[i].Checked?
  }

  function RunClient(s: State, i: nat, op: ClientOp): State
    requires CanClient(s, i, op)
  {
    match op
    case LockCli => s.(clients := s.clients[i := Locked], cliLock := Some(ByClient(i)))
    case ReadTerm => s.(clients := s.clients[i := Read(s.term)])
    case CheckRole => // the request is refused if this server is not the leader
      if s.role == Leader then s.(clients := s.clients[i := Checked(s.clients[i].term)])
      else s.(clients := s.clients[i := Away], cliLock := None)
    case Store => s.(stored := s.stored + [Stored(s.clients[i].term, s.term, s.led, s.role)])
    case UnlockCli => s.(clients := s.clients[i := Away], cliLock := None)
  }

  predicate Enabled(s: State, a: Action) {
    match a
    case P(op) => CanProtocol(s, op)
    case C(i, op) => CanClient(s, i, op)
  }

  function Step(s: State, a: Action): State
    requires Enabled(s, a)
  {
    match a
    case P(op) => RunProtocol(s, op)
    case C(i, op) => RunClient(s, i, op)
  }

  predicate Follows(states: seq<State>, actions: seq<Action>, i: nat)
    requires i < |actions| && |states| == |actions| + 1
  {
    Enabled(states[i], actions[i]) && states[i + 1] == Step(states[i], actions[i])
  }

  /** A run: states linked by enabled actions. */
  predicate IsRun(states: seq<State>, actions: seq<Action>) {
    |states| == |actions| + 1 && forall i :: 0 <= i < |actions| ==> Follows(states, actions, i)
  }

  /** In this run no vote is started by a leader. */
  predicate NoLeaderVote(states: seq<State>, actions: seq<Action>)
    requires |states| == |actions| + 1
  {
    forall i :: 0 <= i < |actions| && actions[i] == P(BeginVote) ==> states[i].role != Leader
  }

  /** Every entry was stored under the current term, which this server had won and was leading. */
  ghost predicate WellStamped(s: State) {
    forall k :: 0 <= k < |s.stored| ==>
      s.stored[k].role == Leader && s.stored[k].stamp == s.stored[k].term == s.stored[k].led
  }

  // ----- runs without a vote started by a leader

  predicate HoldsLock(p: Protocol) {
    p.TermLocked? || p.TermRole? || p.TermDone? || p.FollowLocked? || p.FollowDone? || p.LeadLocked? || p.LeadDone?
  }

  ghost predicate ClientOk(s: State, i: nat)
    requires i < |s.clients|
  {
    var c := s.clients[i];
    && (!c.Away? <==> s.cliLock == Some(ByClient(i)))
    && (c.Read? && s.role == Leader ==> c.term == s.term)
    && (c.Checked? ==> s.role == Leader && c.term == s.term)
  }

  ghost predicate Inv(s: State) {
    && (HoldsLock(s.protocol) <==> s.cliLock == Some(ByProtocol))
    && (s.cliLock.Some? && s.cliLock.value.ByClient? ==> s.cliLock.value.i < |s.clients|)
    && (s.protocol.VoteBegun? || s.protocol.VoteTerm? || s.protocol.TermRole? ==> s.role != Leader)
    && (s.role == Leader ==> s.led == s.term)
    && (forall i :: 0 <= i < |s.clients| ==> ClientOk(s, i))
    && WellStamped(s)
  }

  lemma StepInv(s: State, a: Action)
    requires Inv(s) && Enabled(s, a) && (a == P(BeginVote) ==> s.role != Leader)
    ensures Inv(Step(s, a))
  {
    var s' := Step(s, a);
    if a.C? { assert ClientOk(s, a.i); }
    forall i | 0 <= i < |s'.clients| ensures ClientOk(s', i) {
      assert ClientOk(s, i);
    }
  }

  lemma {:induction false} RunInv(states: seq<State>, actions: seq<Action>, i: nat)
    requires IsRun(states, actions) && NoLeaderVote(states, actions) && Inv(states[0]) && i < |states|
    ensures Inv(states[i])
  {
    hide Inv, Step, Enabled;
    if i == 0 {
    } else {
      RunInv(states, actions, i - 1);
      assert Follows(states, actions, i - 1);
      StepInv(states[i - 1], actions[i - 1]);
    }
  }

  /** Client entries are stamped right throughout every run in which no leader starts a vote. */
  lemma StampedRight(clients: nat, term: nat, states: seq<State>, actions: seq<Action>, i: nat)
    requires IsRun(states, actions) && states[0] == Init(clients, term) && i < |states|
    requires NoLeaderVote(states, actions)
    ensures WellStamped(states[i])
  {
    RunInv(states, actions, i);
  }

  // ----- what the protocol thread's procedures come to

  /** Role and term at the end of the procedure that is under way. */
  function Outcome(s: State): (Role, nat) {
    match s.protocol
    case TermWanted(t) => (Follower, t)
    case TermLocked(t) => (Follower, t)
    case TermRole(t) => (Follower, t)
    case TermDone => (Follower, s.term)
    case FollowWanted => (Follower, s.term)
    case FollowLocked => (Follower, s.term)
    case LeadWanted => (Leader, s.term)
    case LeadLocked => (Leader, s.term)
    case VoteBegun => (Candidate, s.term + 1)
    case VoteTerm => (Candidate, s.term)
    case _ => (s.role, s.term)
  }

  predicate Begins(a: Action) {
    a.P? && (a.pop.WantTerm? || a.pop.WantFollow? || a.pop.WantLead? || a.pop.BeginVote?)
  }

  /** Whatever the clients do in between, a procedure ends with the role and term it was begun for. */
  lemma OutcomeKept(s: State, a: Action)
    requires Enabled(s, a) && !Begins(a)
    ensures Outcome(Step(s, a)) == Outcome(s)
  {
  }

  /** These are role and term that the protocol's functions give a server. */
  lemma OutcomeIsRaft(s: State, a: Action, server: Server, conf: LogEntry)
    requires Enabled(s, a) && Begins(a) && server.role == s.role && server.term == s.term
    ensures var server' := match a.pop
                           case WantTerm(t) => UpdateTerm(server, t)
                           case WantLead => BecomeLeader(server, conf)
                           case BeginVote => Candidacy(server)
                           case _ => BecomeFollower(server);
            Outcome(Step(s, a)) == (server'.role, server'.term)
  {
  }

  // ----- a vote started by a leader

  /** In any run a client's term is not newer than the server's, and a term update only raises it. */
  ghost predicate TermsOk(s: State) {
    && (s.protocol.TermWanted? || s.protocol.TermLocked? || s.protocol.TermRole? ==> s.protocol.term > s.term)
    && forall i :: 0 <= i < |s.clients| && (s.clients[i].Read? || s.clients[i].Checked?) ==> s.clients[i].term <= s.term
  }

  lemma {:induction false} RunTerms(states: seq<State>, actions: seq<Action>, i: nat)
    requires IsRun(states, actions) && TermsOk(states[0]) && i < |states|
    ensures TermsOk(states[i])
  {
    if i == 0 {
    } else {
      RunTerms(states, actions, i - 1);
      assert Follows(states, actions, i - 1);
    }
  }

  /**
   From every reachable state in which a leader serves a client that has passed the role check,
   a vote overtakes the client: the entry is stored under a term the server is no longer in.
   */
  lemma VoteOvertakesClient(clients: nat, term: nat, states: seq<State>, actions: seq<Action>, i: nat)
    returns (s1: State, s2: State, s3: State)
    requires IsRun(states, actions) && states[0] == Init(clients, term)
    requires var s := states[|states| - 1];
             s.protocol == Idle && s.role == Leader && i < |s.clients| && s.clients[i].Checked?
    ensures IsRun([states[|states| - 1], s1, s2, s3], [P(BeginVote), P(IncTerm), C(i, Store)])
    ensures !WellStamped(s3)
  {
    RunTerms(states, actions, |states| - 1);
    var s := states[|states| - 1];
    s1 := Step(s, P(BeginVote));
    s2 := Step(s1, P(IncTerm));
    s3 := Step(s2, C(i, Store));
    var (run, ops) := ([s, s1, s2, s3], [P(BeginVote), P(IncTerm), C(i, Store)]);
    assert Follows(run, ops, 0) && Follows(run, ops, 1) && Follows(run, ops, 2);
    assert s3.stored[|s.stored|].stamp < s3.stored[|s.stored|].term;
  }

  // ----- exactly when a vote may start

  lemma RunPrepend(s: State, a: Action, states: seq<State>, actions: seq<Action>)
    requires IsRun(states, actions) && NoLeaderVote(states, actions) && Enabled(s, a) && states[0] == Step(s, a)
    requires a == P(BeginVote) ==> s.role != Leader
    ensures IsRun([s] + states, [a] + actions) && NoLeaderVote([s] + states, [a] + actions)
  {
    hide Step, Enabled;
    forall i | 0 <= i < |actions| + 1 ensures Follows([s] + states, [a] + actions, i) {
      if i > 0 { assert Follows(states, actions, i - 1); }
    }
  }

  /** A continuation, without a further vote of a leader, that ends in a mis-stamped entry. */
  ghost predicate GoesWrong(s: State, states: seq<State>, actions: seq<Action>) {
    && IsRun(states, actions) && NoLeaderVote(states, actions)
    && states[0] == s && !WellStamped(states[|states| - 1])
  }

  lemma WrongLater(s: State, a: Action, states: seq<State>, actions: seq<Action>)
    requires Enabled(s, a) && a != P(BeginVote) && GoesWrong(Step(s, a), states, actions)
    ensures GoesWrong(s, [s] + states, [a] + actions)
  {
    RunPrepend(s, a, states, actions);
  }

  lemma WrongNow(s: State)
    requires !WellStamped(s)
    ensures GoesWrong(s, [s], [])
  {
  }

  /** The vote has begun on a leader; client i goes on to its write unless it has passed it. */
  lemma ClientGoesWrong(s: State, i: nat) returns (states: seq<State>, actions: seq<Action>)
    requires s.protocol == VoteBegun && s.role == Leader && i < |s.clients|
    requires s.clients[i].Away? ==> s.cliLock == None
    requires s.clients[i].Read? || s.clients[i].Checked? ==> s.clients[i].term <= s.term
    ensures GoesWrong(s, states, actions)
    decreases match s.clients[i] case Away => 3 case Locked => 2 case Read(_) => 1 case Checked(_) => 0
  {
    hide GoesWrong;
    match s.clients[i]
    case Checked(t) =>
      var s1 := Step(s, P(IncTerm));
      var s2 := Step(s1, C(i, Store));
      assert s2.stored[|s.stored|].stamp < s2.stored[|s.stored|].term;
      WrongNow(s2);
      WrongLater(s1, C(i, Store), [s2], []);
      WrongLater(s, P(IncTerm), [s1, s2], [C(i, Store)]);
      states, actions := [s] + [s1, s2], [P(IncTerm)] + [C(i, Store)];
    case Read(_) =>
      states, actions := ClientGoesWrong(Step(s, C(i, CheckRole)), i);
      WrongLater(s, C(i, CheckRole), states, actions);
      states, actions := [s] + states, [C(i, CheckRole)] + actions;
    case Locked =>
      states, actions := ClientGoesWrong(Step(s, C(i, ReadTerm)), i);
      WrongLater(s, C(i, ReadTerm), states, actions);
      states, actions := [s] + states, [C(i, ReadTerm)] + actions;
    case Away =>
      states, actions := ClientGoesWrong(Step(s, C(i, LockCli)), i);
      WrongLater(s, C(i, LockCli), states, actions);
      states, actions := [s] + states, [C(i, LockCli)] + actions;
  }

  lemma SafeVote(s: State, states: seq<State>, actions: seq<Action>)
    requires Inv(s) && s.protocol == Idle && s.role != Leader
    ensures !GoesWrong(Step(s, P(BeginVote)), states, actions)
  {
    StepInv(s, P(BeginVote));
    if IsRun(states, actions) && NoLeaderVote(states, actions) && states[0] == Step(s, P(BeginVote)) {
      RunInv(states, actions, |states| - 1);
    }
  }

  /**
   After any run so far free of votes by leaders, starting a vote can lead to a mis-stamped entry if
   and only if this server is the leader; the guard that the call from the pre-vote handler lacks.
   */
  lemma VoteIsSafeIff(clients: nat, term: nat, states: seq<State>, actions: seq<Action>)
    requires IsRun(states, actions) && states[0] == Init(clients, term) && NoLeaderVote(states, actions)
    requires clients > 0 && states[|states| - 1].protocol == Idle
    ensures var s := states[|states| - 1];
            s.role != Leader <==>
            forall states': seq<State>, actions': seq<Action> :: !GoesWrong(Step(s, P(BeginVote)), states', actions')
  {
    var s := states[|states| - 1];
    RunInv(states, actions, |states| - 1);
    if s.role != Leader {
      forall states': seq<State>, actions': seq<Action> ensures !GoesWrong(Step(s, P(BeginVote)), states', actions') {
        SafeVote(s, states', actions');
      }
    } else {
      SameClients(states, actions, |states| - 1);
      var i := if s.cliLock.None? then 0 else s.cliLock.value.i;
      assert ClientOk(s, i);
      var states', actions' := ClientGoesWrong(Step(s, P(BeginVote)), i);
    }
  }

  lemma {:induction false} SameClients(states: seq<State>, actions: seq<Action>, i: nat)
    requires IsRun(states, actions) && i < |states|
    ensures |states[i].clients| == |states[0].clients|
  {
    if i == 0 {
    } else {
      SameClients(states, actions, i - 1);
      assert Follows(states, actions, i - 1);
    }
  }

  // ----- such states exist

  function Leading(): State { State(Leader, 1, 1, None, Idle, [Away], []) }

  lemma ClientChecks() returns (states: seq<State>, actions: seq<Action>)
    ensures IsRun(states, actions) && states[0] == Leading() && NoLeaderVote(states, actions)
    ensures states[|states| - 1] == Leading().(cliLock := Some(ByClient(0)), clients := [Checked(1)])
  {
    var s0 := Leading();
    var s1 := Step(s0, C(0, LockCli));
    var s2 := Step(s1, C(0, ReadTerm));
    var s3 := Step(s2, C(0, CheckRole));
    assert s3.clients == [Checked(1)];
    hide Step, Enabled, IsRun, NoLeaderVote;
    Still(s3);
    states, actions := [s3], [];
    RunPrepend(s2, C(0, CheckRole), states, actions);
    states, actions := [s2] + states, [C(0, CheckRole)] + actions;
    RunPrepend(s1, C(0, ReadTerm), states, actions);
    states, actions := [s1] + states, [C(0, ReadTerm)] + actions;
    RunPrepend(s0, C(0, LockCli), states, actions);
    states, actions := [s0] + states, [C(0, LockCli)] + actions;
    assert states[|states| - 1] == s3;
  }

  /** A leader with a client past its role check: the vote handler may be entered here. */
  lemma RaceExists() returns (states: seq<State>, actions: seq<Action>)
    ensures IsRun(states, actions) && states[0] == Init(1, 1) && NoLeaderVote(states, actions)
    ensures var s := states[|states| - 1];
            s.protocol == Idle && s.role == Leader && s.term == 1 && s.clients == [Checked(1)]
  {
    var s0 := Init(1, 1);
    assert s0 == State(Follower, 1, 0, None, Idle, [Away], []);
    var s1 := Step(s0, P(WantLead));
    var s2 := Step(s1, P(LockLead));
    var s3 := Step(s2, P(WriteLeader));
    var s4 := Step(s3, P(UnlockLead));
    assert s4 == Leading();
    hide Step, Enabled, IsRun, NoLeaderVote;
    states, actions := ClientChecks();
    RunPrepend(s3, P(UnlockLead), states, actions);
    states, actions := [s3] + states, [P(UnlockLead)] + actions;
    RunPrepend(s2, P(WriteLeader), states, actions);
    states, actions := [s2] + states, [P(WriteLeader)] + actions;
    RunPrepend(s1, P(LockLead), states, actions);
    states, actions := [s1] + states, [P(LockLead)] + actions;
    RunPrepend(s0, P(WantLead), states, actions);
    states, actions := [s0] + states, [P(WantLead)] + actions;
  }

  lemma Still(s: State)
    ensures IsRun([s], []) && NoLeaderVote([s], [])
  {
  }
}
