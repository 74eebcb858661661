/**
 The commit executor and the pauser as interleaved atomic steps: any number of executor
 threads, one thread that pauses and resumes state machine execution, and the writers of the
 log and of the commit index. A step is one write, or one check with the reads it compares;
 adjusting the index to the log's start is one step, and so is a snapshot install, which runs
 under the server lock while execution is paused.
 */
module CommitExec {
  import opened Basics

  /** Where an executor thread is; `first` tells the first pass through the loop. */
  datatype Pc =
    | Out                     // not in the executor
    | GotLock                 // the try-lock succeeded
    | Flagged                 // in-progress flag set
    | LoopTop(first: bool)
    | BelowQuick(first: bool) // commit index check passed
    | BelowEnd(first: bool)   // log end check passed
    | InTime                  // time slice not used up
    | NotPaused               // pause flag read as false
    | Applying(idx: nat)      // inside the state machine's commit call
    | Applied(idx: nat)
    | Leaving
    | Unflagged               // in-progress flag cleared, lock still held

  datatype Pauser = Running | Pausing | Paused

  datatype State = State(
    pcs: seq<Pc>,
    lock: Option<nat>,
    inProgress: bool,
    paused: bool,
    pauser: Pauser,
    sm: nat,                  // last index applied to the state machine
    quick: nat,               // index committed by the cluster
    start: nat,               // first index in the log
    next: nat,                // first free index of the log
    applied: seq<nat>)        // history of commit calls

  /** Steps of an executor thread. */
  datatype Op =
    | TryLock | SetFlag | Adjust
    | CheckQuick | CheckEnd | CheckTime(expired: bool) | CheckPause
    | BeginApply | EndApply | Advance
    | ClearFlag | Unlock

  datatype Action =
    | Exec(t: nat, op: Op)
    | Pause | WaitOk | Resume | Install(idx: nat)
    | RaiseQuick(idx: nat) | Append | Compact(upto: nat)
    | LowerQuick(keep: nat) | LowerSm(keep: nat) | Overwrite(keep: nat)   // the append handler's rollback

  function Init(threads: nat, sm: nat, quick: nat, start: nat, next: nat): State {
    State(seq(threads, _ => Out), None, false, false, Running, sm, quick, start, next, [])
  }

  function Goto(s: State, t: nat, pc: Pc): State
    requires t < |s.pcs|
  {
    s.(pcs := s.pcs[t := pc])
  }

  predicate CanRun(pc: Pc, op: Op) {
    match op
    case TryLock => pc.Out?
    case SetFlag => pc.GotLock?
    case Adjust => pc.Flagged?
    case CheckQuick => pc.LoopTop?
    case CheckEnd => pc.BelowQuick?
    case CheckTime(_) => pc.BelowEnd?
    case CheckPause => pc.InTime?
    case BeginApply => pc.NotPaused?
    case EndApply => pc.Applying?
    case Advance => pc.Applied?
    case ClearFlag => pc.Leaving?
    case Unlock => pc.Unflagged?
  }

  function RunOp(s: State, t: nat, op: Op): State
    requires t < |s.pcs| && CanRun(s.pcs[t], op)
  {
    match op
    case TryLock => if s.lock == None then Goto(s, t, GotLock).(lock := Some(t)) else s
    case SetFlag => Goto(s, t, Flagged).(inProgress := true)
    case Adjust =>
      Goto(s, t, LoopTop(true)).(sm := if s.start > 0 && s.sm < s.start - 1 then s.start - 1 else s.sm)
    case CheckQuick => Goto(s, t, if s.sm < s.quick then BelowQuick(s.pcs[t].first) else Leaving)
    case CheckEnd => Goto(s, t, if s.sm + 1 < s.next then BelowEnd(s.pcs[t].first) else Leaving)
    case CheckTime(expired) => Goto(s, t, if !s.pcs[t].first && expired then Leaving else InTime)
    case CheckPause => Goto(s, t, if s.paused then Leaving else NotPaused)
    case BeginApply => Goto(s, t, Applying(s.sm + 1)).(applied := s.applied + [s.sm + 1])
    case EndApply => Goto(s, t, Applied(s.pcs[t].idx))
    case Advance => // compare and exchange
      Goto(s, t, LoopTop(false)).(sm := if s.sm + 1 == s.pcs[t].idx then s.pcs[t].idx else s.sm)
    case ClearFlag => Goto(s, t, Unflagged).(inProgress := false)
    case Unlock => Goto(s, t, Out).(lock := None)
  }

  predicate Enabled(s: State, a: Action) {
    match a
    case Exec(t, op) => t < |s.pcs| && CanRun(s.pcs[t], op)
    case Pause => s.pauser == Running
    case WaitOk => s.pauser == Pausing && !s.inProgress
    case Resume => s.pauser != Running
    case Install(_) => s.pauser == Paused
    case RaiseQuick(_) => true
    case Append => true
    case Compact(upto) => upto <= s.sm
    case LowerQuick(_) => true
    case LowerSm(_) => true
    case Overwrite(keep) => keep + 1 < s.next
  }

  function Step(s: State, a: Action): State
    requires Enabled(s, a)
  {
    match a
    case Exec(t, op) => RunOp(s, t, op)
    case Pause => s.(paused := true, pauser := Pausing)
    case WaitOk => s.(pauser := Paused)
    case Resume => s.(paused := false, pauser := Running)
    case Install(idx) =>
      s.(start := Max(s.start, idx + 1), next := Max(s.next, idx + 1), sm := idx, quick := idx)
    case RaiseQuick(idx) => s.(quick := Max(s.quick, idx))
    case Append => s.(next := s.next + 1)
    case Compact(upto) => s.(start := Max(s.start, upto + 1), next := Max(s.next, upto + 1))
    case LowerQuick(keep) => s.(quick := Min(s.quick, keep))
    case LowerSm(keep) => s.(sm := Min(s.sm, keep))
    case Overwrite(keep) => s.(next := keep + 2)
  }

  predicate Follows(states: seq<State>, actions: seq<Action>, i: nat)
    requires i < |actions| && |states| == |actions| + 1
  {
    Enabled(states[i], actions[i]) && states[i + 1] == Step(states[i], actions[i])
  }

  /** A run: states linked by enabled actions. */
  predicate IsRun(states: seq<State>, actions: seq<Action>) {
    |states| == |actions| + 1 && forall i :: 0 <= i < |actions| ==> Follows(states, actions, i)
  }

  predicate Starts(s: State) {
    s == Init(|s.pcs|, s.sm, s.quick, s.start, s.next)
  }

  // ----- mutual exclusion and the pause handshake

  /** Between setting and clearing the in-progress flag. */
  predicate InRegion(pc: Pc) {
    !(pc.Out? || pc.GotLock? || pc.Unflagged?)
  }

  /** Committed to a call of the state machine, or not yet past recording it. */
  predicate Busy(pc: Pc) {
    pc.NotPaused? || pc.Applying? || pc.Applied?
  }

  ghost predicate ThreadOk(s: State, t: nat)
    requires t < |s.pcs|
  {
    var pc := s.pcs[t];
    && (pc != Out <==> s.lock == Some(t))
    && (InRegion(pc) ==> s.inProgress)
    && (Busy(pc) ==> s.pauser != Paused)
  }

  /** The flag is set by the lock's holder only. */
  ghost predicate FlagOk(s: State) {
    && (s.inProgress ==> s.lock.Some?)
    && (s.lock.Some? ==> s.lock.value < |s.pcs| && (s.inProgress ==> InRegion(s.pcs[s.lock.value])))
  }

  ghost predicate Inv(s: State) {
    && (s.paused <==> s.pauser != Running)
    && FlagOk(s)
    && forall t :: 0 <= t < |s.pcs| ==> ThreadOk(s, t)
  }

  lemma OpInv(s: State, t: nat, op: Op)
    requires Inv(s) && t < |s.pcs| && CanRun(s.pcs[t], op)
    ensures Inv(RunOp(s, t, op))
  {
    var s' := RunOp(s, t, op);
    assert ThreadOk(s, t);
    forall u | 0 <= u < |s'.pcs| ensures ThreadOk(s', u) {
      assert ThreadOk(s, u);
    }
  }

  lemma StepInv(s: State, a: Action)
    requires Inv(s) && Enabled(s, a)
    ensures Inv(Step(s, a))
  {
    if a.Exec? {
      OpInv(s, a.t, a.op);
    } else {
      var s' := Step(s, a);
      forall t | 0 <= t < |s'.pcs| ensures ThreadOk(s', t) {
        assert ThreadOk(s, t);
      }
    }
  }

  lemma {:induction false} RunInv(states: seq<State>, actions: seq<Action>, i: nat)
    requires IsRun(states, actions) && Inv(states[0]) && i < |states|
    ensures Inv(states[i])
  {
    hide Inv, Step, Enabled;
    if i == 0 {
    } else {
      RunInv(states, actions, i - 1);
      assert Follows(states, actions, i - 1);
      StepInv(states[i - 1], actions[i - 1]);
    }
  }

  /**
   Once the wait has returned true, no commit call is running and none can begin until resume,
   whatever the threads and the append handler do; and no thread that ran one still has to record it.
   */
  lemma PauseExcludesCommit(states: seq<State>, actions: seq<Action>, i: nat, t: nat)
    requires IsRun(states, actions) && Starts(states[0]) && i < |states|
    requires states[i].pauser == Paused && t < |states[i].pcs|
    ensures !Enabled(states[i], Exec(t, BeginApply)) && !states[i].pcs[t].Applying? && !states[i].pcs[t].Applied?
  {
    RunInv(states, actions, i);
    assert ThreadOk(states[i], t);
  }

  // ----- recording a call

  predicate Calling(pc: Pc) { pc.Applying? || pc.Applied? }

  /** A rollback that takes the index below the call for `idx`. */
  predicate RollsBelow(a: Action, idx: nat) { a.LowerSm? && a.keep + 1 < idx }

  /** What a step during thread t's call does to the index. */
  lemma CallStep(s: State, a: Action, t: nat)
    requires Inv(s) && Enabled(s, a) && t < |s.pcs| && Calling(s.pcs[t]) && Calling(Step(s, a).pcs[t])
    ensures Step(s, a).pcs[t].idx == s.pcs[t].idx
    ensures Step(s, a).sm == if a.LowerSm? then Min(s.sm, a.keep) else s.sm
  {
    assert ThreadOk(s, t);
    if a.Exec? { assert ThreadOk(s, a.t); }
  }

  /** Thread t's call begins at step j and is not over at state m. */
  ghost predicate InCall(states: seq<State>, actions: seq<Action>, t: nat, j: nat, m: nat) {
    && IsRun(states, actions) && j < m < |states| && actions[j] == Exec(t, BeginApply)
    && forall i :: j < i <= m ==> t < |states[i].pcs| && Calling(states[i].pcs[t])
  }

  ghost predicate NoRollBelow(actions: seq<Action>, lo: nat, hi: nat, idx: nat)
    requires hi <= |actions|
  {
    forall i :: lo < i < hi ==> !RollsBelow(actions[i], idx)
  }

  lemma {:induction false} IndexDuringCall(states: seq<State>, actions: seq<Action>, t: nat, j: nat, m: nat)
    requires InCall(states, actions, t, j, m) && Inv(states[0])
    ensures states[m].sm + 1 <= states[m].pcs[t].idx
    ensures states[m].sm + 1 == states[m].pcs[t].idx <==> NoRollBelow(actions, j, m, states[m].pcs[t].idx)
    decreases m
  {
    hide Inv;
    assert Follows(states, actions, m - 1);
    if m > j + 1 {
      assert InCall(states, actions, t, j, m - 1);
      IndexDuringCall(states, actions, t, j, m - 1);
      RunInv(states, actions, m - 1);
      CallStep(states[m - 1], actions[m - 1], t);
      LastRoll(actions, j, m, states[m].pcs[t].idx);
    }
  }

  lemma LastRoll(actions: seq<Action>, lo: nat, hi: nat, idx: nat)
    requires lo + 1 < hi <= |actions|
    ensures NoRollBelow(actions, lo, hi, idx) <==> NoRollBelow(actions, lo, hi - 1, idx) && !RollsBelow(actions[hi - 1], idx)
  {
    if NoRollBelow(actions, lo, hi - 1, idx) && !RollsBelow(actions[hi - 1], idx) {
      forall i | lo < i < hi ensures !RollsBelow(actions[i], idx) { }
    }
  }

  /**
   The compare-and-exchange that records a call succeeds if and only if the append handler has not
   rolled the index back below the call since it began; snapshot installs never get in the way.
   */
  lemma AdvanceTakesEffectIff(states: seq<State>, actions: seq<Action>, t: nat, j: nat, m: nat)
    requires InCall(states, actions, t, j, m) && Starts(states[0]) && states[m].pcs[t].Applied?
    ensures Step(states[m], Exec(t, Advance)).sm == states[m].pcs[t].idx <==>
            NoRollBelow(actions, j, m, states[m].pcs[t].idx)
  {
    IndexDuringCall(states, actions, t, j, m);
  }

  // ----- in-order, exactly-once apply

  /** Past the point where the index has been adjusted to the log's start. */
  predicate Adjusted(pc: Pc) {
    InRegion(pc) && !pc.Flagged? && !pc.Leaving?
  }

  ghost predicate OneCalls(s: State) {
    s.lock.Some? && s.lock.value < |s.pcs| && Calling(s.pcs[s.lock.value])
  }

  /** `first` is where the run of applied indexes begins; the index is still below it before the first adjustment. */
  ghost predicate Progress(s: State, first: nat) {
    if s.sm + 1 < first then s.applied == [] && s.start == first
    else s.sm + 1 + (if OneCalls(s) then 1 else 0) == first + |s.applied| && s.start <= s.sm + 1
  }

  ghost predicate Bounded(s: State, t: nat)
    requires t < |s.pcs|
  {
    var pc := s.pcs[t];
    && (pc.BelowQuick? || pc.BelowEnd? || pc.InTime? || pc.NotPaused? ==> s.sm < s.quick)
    && (pc.BelowEnd? || pc.InTime? || pc.NotPaused? ==> s.sm + 1 < s.next)
    && (Adjusted(pc) ==> s.start <= s.sm + 1)
    && (Calling(pc) ==> s.sm + 1 == pc.idx)
  }

  /** The calls so far are one gapless ascending run that ends within the commit index and the log. */
  ghost predicate Gapless(s: State, first: nat) {
    && (forall i :: 0 <= i < |s.applied| ==> s.applied[i] == first + i)
    && (s.applied != [] ==> first + |s.applied| - 1 <= s.quick && first + |s.applied| - 1 < s.next)
  }

  ghost predicate Order(s: State, first: nat) {
    && Inv(s)
    && Progress(s, first)
    && Gapless(s, first)
    && forall t :: 0 <= t < |s.pcs| ==> Bounded(s, t)
  }

  lemma SameThreads(s: State, t: nat, op: Op)
    requires t < |s.pcs| && CanRun(s.pcs[t], op)
    ensures |RunOp(s, t, op).pcs| == |s.pcs|
  {
  }

  lemma OpProgress(s: State, t: nat, op: Op, first: nat)
    requires t < |s.pcs| && CanRun(s.pcs[t], op) && ThreadOk(s, t) && Bounded(s, t) && Progress(s, first)
    requires s.lock.Some? ==> s.lock.value < |s.pcs|
    ensures Progress(RunOp(s, t, op), first)
  {
    var s' := RunOp(s, t, op);
    assert s'.pcs[t] == s.pcs[t] || s'.pcs == s.pcs[t := s'.pcs[t]];
  }

  lemma OpGapless(s: State, t: nat, op: Op, first: nat)
    requires t < |s.pcs| && CanRun(s.pcs[t], op) && ThreadOk(s, t) && Bounded(s, t)
    requires Progress(s, first) && Gapless(s, first)
    ensures Gapless(RunOp(s, t, op), first)
  {
  }

  lemma OpBounded(s: State, t: nat, op: Op, u: nat)
    requires t < |s.pcs| && CanRun(s.pcs[t], op) && ThreadOk(s, t) && Bounded(s, t)
    requires u < |s.pcs| && ThreadOk(s, u) && Bounded(s, u)
    ensures u < |RunOp(s, t, op).pcs| && Bounded(RunOp(s, t, op), u)
  {
  }

  lemma OpOrder(s: State, t: nat, op: Op, first: nat)
    requires Order(s, first) && t < |s.pcs| && CanRun(s.pcs[t], op)
    ensures Order(RunOp(s, t, op), first)
  {
    hide RunOp, CanRun, ThreadOk, Progress, Gapless, Bounded;
    OpInv(s, t, op);
    SameThreads(s, t, op);
    assert ThreadOk(s, t) && Bounded(s, t);
    OpProgress(s, t, op, first);
    OpGapless(s, t, op, first);
    forall u | 0 <= u < |s.pcs| ensures Bounded(RunOp(s, t, op), u) {
      assert ThreadOk(s, u) && Bounded(s, u);
      OpBounded(s, t, op, u);
    }
  }

  /** Steps of a log that is only appended to, compacted and applied. */
  predicate Ordinary(a: Action) {
    !a.Install? && !a.LowerQuick? && !a.LowerSm? && !a.Overwrite?
  }

  lemma StepOrder(s: State, a: Action, first: nat)
    requires Order(s, first) && Enabled(s, a) && Ordinary(a)
    ensures Order(Step(s, a), first)
  {
    if a.Exec? {
      OpOrder(s, a.t, a.op, first);
    } else {
      StepInv(s, a);
      var s' := Step(s, a);
      forall u | 0 <= u < |s'.pcs| ensures Bounded(s', u) {
        assert Bounded(s, u);
      }
    }
  }

  lemma {:induction false} RunOrder(states: seq<State>, actions: seq<Action>, i: nat, first: nat)
    requires IsRun(states, actions) && Order(states[0], first) && i < |states|
    requires forall k :: 0 <= k < |actions| ==> Ordinary(actions[k])
    ensures Order(states[i], first)
  {
    hide Order, Step, Enabled, Ordinary;
    if i == 0 {
    } else {
      RunOrder(states, actions, i - 1, first);
      assert Follows(states, actions, i - 1);
      StepOrder(states[i - 1], actions[i - 1], first);
    }
  }

  /**
   Without rollback and snapshot installs, for any number of threads and any time-outs and pauses,
   the commit calls are one gapless ascending run from the later of the index after the last applied
   one and the log's start, and never pass the commit index or the log's end.
   */
  lemma InOrderExactlyOnce(states: seq<State>, actions: seq<Action>, i: nat)
    requires IsRun(states, actions) && Starts(states[0]) && i < |states|
    requires forall k :: 0 <= k < |actions| ==> Ordinary(actions[k])
    ensures Gapless(states[i], Max(states[0].sm + 1, states[0].start))
  {
    RunOrder(states, actions, i, Max(states[0].sm + 1, states[0].start));
  }

  // ----- runs put together

  lemma RunPrepend(s: State, a: Action, states: seq<State>, actions: seq<Action>)
    requires IsRun(states, actions) && Enabled(s, a) && states[0] == Step(s, a)
    ensures IsRun([s] + states, [a] + actions)
  {
    hide Step, Enabled;
    forall i | 0 <= i < |actions| + 1 ensures Follows([s] + states, [a] + actions, i) {
      if i > 0 { assert Follows(states, actions, i - 1); }
    }
  }

  lemma Still(s: State)
    ensures IsRun([s], [])
  {
  }

  lemma RunExtend(states: seq<State>, actions: seq<Action>, a: Action)
    requires IsRun(states, actions) && Enabled(states[|states| - 1], a)
    ensures IsRun(states + [Step(states[|states| - 1], a)], actions + [a])
  {
    hide Step, Enabled;
    var (more, ops) := (states + [Step(states[|states| - 1], a)], actions + [a]);
    forall i | 0 <= i < |ops| ensures Follows(more, ops, i) {
      if i < |actions| { assert Follows(states, actions, i); }
    }
  }
}
