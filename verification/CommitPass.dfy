/**
 How far an executor gets: it stops only for a reason, and a pass that nobody disturbs applies
 everything that is committed and stored.
 */
module CommitPass {
  import opened Basics
  import opened CommitExec

  // ----- why a thread leaves

  /** What the loop looks at: nothing left to apply, the time slice used up after an entry, or a pause. */
  predicate HasReason(s: State, t: nat, op: Op)
    requires t < |s.pcs|
  {
    || (op == CheckQuick && s.sm >= s.quick)
    || (op == CheckEnd && s.sm + 1 >= s.next)
    || (op == CheckTime(true) && s.pcs[t] == BelowEnd(false))
    || (op == CheckPause && s.paused)
  }

  lemma OpLeavesIff(s: State, t: nat, op: Op)
    requires t < |s.pcs| && CanRun(s.pcs[t], op) && !s.pcs[t].Leaving?
    ensures |RunOp(s, t, op).pcs| == |s.pcs|
    ensures RunOp(s, t, op).pcs[t].Leaving? <==> HasReason(s, t, op)
  {
  }

  /** An operation of one thread moves no other, and everybody else's actions move none. */
  lemma OthersStay(s: State, a: Action, t: nat)
    requires Enabled(s, a) && t < |s.pcs| && !(a.Exec? && a.t == t)
    ensures |Step(s, a).pcs| == |s.pcs| && Step(s, a).pcs[t] == s.pcs[t]
  {
    if a.Exec? { OpMovesOne(s, a.t, a.op, t); }
  }

  lemma OpMovesOne(s: State, u: nat, op: Op, t: nat)
    requires u < |s.pcs| && CanRun(s.pcs[u], op) && t < |s.pcs| && t != u
    ensures |RunOp(s, u, op).pcs| == |s.pcs| && RunOp(s, u, op).pcs[t] == s.pcs[t]
  {
  }

  /** A thread goes on to leave exactly if the check it makes gives a reason. */
  lemma LeavesIff(s: State, a: Action, t: nat)
    requires Enabled(s, a) && t < |s.pcs| && !s.pcs[t].Leaving?
    ensures t < |Step(s, a).pcs|
    ensures Step(s, a).pcs[t].Leaving? <==> a.Exec? && a.t == t && HasReason(s, t, a.op)
  {
    hide RunOp, CanRun, HasReason;
    if a.Exec? && a.t == t { OpLeavesIff(s, t, a.op); } else { OthersStay(s, a, t); }
  }

  /** Thread t has recorded a call before state i, and has not entered the executor anew since. */
  ghost predicate RecordedSince(actions: seq<Action>, t: nat, i: nat)
    requires i <= |actions|
  {
    exists j: nat :: j < i && actions[j] == Exec(t, Advance) &&
      forall m: nat :: j < m < i ==> actions[m] != Exec(t, TryLock)
  }

  predicate LaterPass(pc: Pc) {
    pc == LoopTop(false) || pc == BelowQuick(false) || pc == BelowEnd(false)
  }

  /** The time slice is looked at only after an entry has been applied. */
  lemma {:induction false} FirstPassIsFree(states: seq<State>, actions: seq<Action>, t: nat, i: nat)
    requires IsRun(states, actions) && Starts(states[0]) && i < |states| && t < |states[i].pcs|
    requires LaterPass(states[i].pcs[t])
    ensures RecordedSince(actions, t, i)
  {
    hide RunOp, Init;
    if i == 0 {
      InitOut(states[0], t);
    } else {
      var (s, a) := (states[i - 1], actions[i - 1]);
      assert Follows(states, actions, i - 1);
      FirstStep(s, a, t);
      if a == Exec(t, Advance) {
        assert actions[i - 1] == Exec(t, Advance);
      } else {
        FirstPassIsFree(states, actions, t, i - 1);
        var j: nat :| j < i - 1 && actions[j] == Exec(t, Advance) &&
          forall m: nat :: j < m < i - 1 ==> actions[m] != Exec(t, TryLock);
        assert j < i && actions[j] == Exec(t, Advance);
      }
    }
  }

  lemma InitOut(s: State, t: nat)
    requires Starts(s) && t < |s.pcs|
    ensures s.pcs[t] == Out
  {
  }

  lemma FirstStep(s: State, a: Action, t: nat)
    requires Enabled(s, a) && t < |Step(s, a).pcs| && LaterPass(Step(s, a).pcs[t])
    ensures t < |s.pcs| && (a == Exec(t, Advance) || (LaterPass(s.pcs[t]) && a != Exec(t, TryLock)))
  {
    hide RunOp, CanRun, LaterPass;
    SameCount(s, a);
    if a.Exec? && a.t == t { FirstOp(s, t, a.op); } else { OthersStay(s, a, t); }
  }

  lemma SameCount(s: State, a: Action)
    requires Enabled(s, a)
    ensures |Step(s, a).pcs| == |s.pcs|
  {
    hide RunOp, CanRun;
    if a.Exec? { SameThreads(s, a.t, a.op); }
  }

  lemma FirstOp(s: State, t: nat, op: Op)
    requires t < |s.pcs| && CanRun(s.pcs[t], op) && t < |RunOp(s, t, op).pcs| && LaterPass(RunOp(s, t, op).pcs[t])
    ensures op == Advance || (LaterPass(s.pcs[t]) && op != TryLock)
  {
  }

  // ----- a pass without interruption

  /** The index after the adjustment to the log's start. */
  function Adjusted0(s: State): nat {
    if s.start > 0 && s.sm < s.start - 1 then s.start - 1 else s.sm
  }

  /** How far a pass can get: the commit index or the last entry, whichever is smaller. */
  function Limit(s: State): nat {
    if s.next == 0 then 0 else Min(s.quick, s.next - 1)
  }

  function Target(s: State): nat { Max(Adjusted0(s), Limit(s)) }

  /** The indexes from `lo` + 1 to `hi`. */
  function Between(lo: nat, hi: nat): (r: seq<nat>)
    requires lo <= hi
    ensures |r| == hi - lo && forall i :: 0 <= i < |r| ==> r[i] == lo + 1 + i
  {
    seq(hi - lo, i => lo + 1 + i)
  }

  /** Thread t alone acts, and its time slice does not run out. */
  predicate Alone(a: Action, t: nat) {
    a.Exec? && a.t == t && a.op != CheckTime(true)
  }

  predicate SameLimits(s: State, s': State) {
    s'.quick == s.quick && s'.start == s.start && s'.next == s.next && s'.paused == s.paused && |s'.pcs| == |s.pcs|
  }

  /** Not in the loop: nothing has been done yet, or all of it. */
  ghost predicate AtRest(s: State, s': State, done: bool) {
    || (!done && s'.sm == s.sm && s'.applied == s.applied)
    || (s'.sm == Target(s) && s'.applied == s.applied + Between(Adjusted0(s), Target(s)))
  }

  ghost predicate InLoop(s: State, s': State, pc: Pc) {
    && Adjusted0(s) <= s'.sm <= Target(s)
    && (pc.BelowQuick? ==> s'.sm < s'.quick)
    && (pc.BelowEnd? || pc.InTime? || pc.NotPaused? || Calling(pc) ==> s'.sm < Limit(s))
    && (Calling(pc) ==> pc.idx == s'.sm + 1)
    && s'.applied == s.applied + Between(Adjusted0(s), if Calling(pc) then s'.sm + 1 else s'.sm)
  }

  /** Where a pass that began at `s` stands. */
  ghost predicate Standing(s: State, s': State, t: nat)
    requires t < |s'.pcs|
  {
    var pc := s'.pcs[t];
    if pc.Out? || pc.GotLock? || pc.Flagged? then AtRest(s, s', false)
    else if pc.Leaving? || pc.Unflagged? then AtRest(s, s', true)
    else InLoop(s, s', pc)
  }

  lemma AloneLimits(s: State, t: nat, op: Op)
    requires t < |s.pcs| && CanRun(s.pcs[t], op)
    ensures SameLimits(s, RunOp(s, t, op))
  {
  }

  lemma BetweenNone(lo: nat)
    ensures Between(lo, lo) == []
  {
  }

  lemma BetweenNext(lo: nat, hi: nat)
    requires lo <= hi
    ensures Between(lo, hi + 1) == Between(lo, hi) + [hi + 1]
  {
  }

  /** Entering the loop. */
  lemma EnterStep(s: State, s1: State, t: nat, op: Op)
    requires t < |s1.pcs| && SameLimits(s, s1) && CanRun(s1.pcs[t], op) && Standing(s, s1, t)
    requires op == TryLock || op == SetFlag || op == Adjust || op == ClearFlag || op == Unlock
    ensures t < |RunOp(s1, t, op).pcs| && Standing(s, RunOp(s1, t, op), t)
  {
    hide Between;
    BetweenNone(Adjusted0(s));
  }

  lemma CheckStep(s: State, s1: State, t: nat, op: Op)
    requires t < |s1.pcs| && SameLimits(s, s1) && !s.paused && CanRun(s1.pcs[t], op) && Standing(s, s1, t)
    requires op == CheckQuick || op == CheckEnd || op == CheckTime(false) || op == CheckPause
    ensures t < |RunOp(s1, t, op).pcs| && Standing(s, RunOp(s1, t, op), t)
  {
    hide Between;
  }

  lemma ApplyStep(s: State, s1: State, t: nat, op: Op)
    requires t < |s1.pcs| && SameLimits(s, s1) && CanRun(s1.pcs[t], op) && Standing(s, s1, t)
    requires op == BeginApply || op == EndApply || op == Advance
    ensures t < |RunOp(s1, t, op).pcs| && Standing(s, RunOp(s1, t, op), t)
  {
    hide Between;
    if Adjusted0(s) <= s1.sm { BetweenNext(Adjusted0(s), s1.sm); }
  }

  lemma {:induction false} StandingRun(states: seq<State>, actions: seq<Action>, t: nat, i: nat)
    requires IsRun(states, actions) && i < |states| && t < |states[0].pcs|
    requires states[0].pcs[t] == Out && !states[0].paused
    requires forall k :: 0 <= k < |actions| ==> Alone(actions[k], t)
    ensures SameLimits(states[0], states[i]) && Standing(states[0], states[i], t)
  {
    if i == 0 {
    } else {
      hide Standing, RunOp, CanRun;
      StandingRun(states, actions, t, i - 1);
      assert Follows(states, actions, i - 1) && Alone(actions[i - 1], t);
      var (s1, op) := (states[i - 1], actions[i - 1].op);
      AloneLimits(s1, t, op);
      match op
      case BeginApply => ApplyStep(states[0], s1, t, op);
      case EndApply => ApplyStep(states[0], s1, t, op);
      case Advance => ApplyStep(states[0], s1, t, op);
      case CheckQuick => CheckStep(states[0], s1, t, op);
      case CheckEnd => CheckStep(states[0], s1, t, op);
      case CheckTime(_) => CheckStep(states[0], s1, t, op);
      case CheckPause => CheckStep(states[0], s1, t, op);
      case _ => EnterStep(states[0], s1, t, op);
    }
  }

  /**
   When a thread that nobody disturbs, with time left and no pause, goes on to leave, everything
   up to the commit index or the end of the log is applied, each index once and in order.
   */
  lemma PassAppliesAll(states: seq<State>, actions: seq<Action>, t: nat, i: nat)
    requires IsRun(states, actions) && i < |states| && t < |states[0].pcs|
    requires states[0].pcs[t] == Out && !states[0].paused
    requires forall k :: 0 <= k < |actions| ==> Alone(actions[k], t)
    requires t < |states[i].pcs| && states[i].pcs[t] == Leaving
    ensures var s := states[0];
            && states[i].sm == Target(s)
            && states[i].applied == s.applied + Between(Adjusted0(s), Target(s))
  {
    hide IsRun;
    StandingRun(states, actions, t, i);
  }

  // ----- such a pass comes to its end

  /** A run of thread t alone, from s until it leaves. */
  ghost predicate Ends(s: State, t: nat, states: seq<State>, actions: seq<Action>) {
    && IsRun(states, actions) && states[0] == s && (forall k :: 0 <= k < |actions| ==> Alone(actions[k], t))
    && t < |states[|states| - 1].pcs| && states[|states| - 1].pcs[t] == Leaving
  }

  lemma EndsLater(s: State, t: nat, op: Op, states: seq<State>, actions: seq<Action>)
    requires t < |s.pcs| && CanRun(s.pcs[t], op) && op != CheckTime(true) && Ends(RunOp(s, t, op), t, states, actions)
    ensures Ends(s, t, [s] + states, [Exec(t, op)] + actions)
  {
    hide IsRun, RunOp, CanRun;
    RunPrepend(s, Exec(t, op), states, actions);
    RunLength(states, actions);
  }

  lemma RunLength(states: seq<State>, actions: seq<Action>)
    requires IsRun(states, actions)
    ensures |states| == |actions| + 1
  {
  }

  lemma EndsNow(s: State, t: nat)
    requires t < |s.pcs| && s.pcs[t] == Leaving
    ensures Ends(s, t, [s], [])
  {
    Still(s);
  }

  /** One entry: the four checks pass, the call is made and recorded. */
  function AfterEntry(s: State, t: nat): State
    requires t < |s.pcs|
  {
    Goto(s, t, LoopTop(false)).(sm := s.sm + 1, applied := s.applied + [s.sm + 1])
  }

  lemma EntryEnds(s: State, t: nat, states: seq<State>, actions: seq<Action>)
    returns (states': seq<State>, actions': seq<Action>)
    requires t < |s.pcs| && s.pcs[t].LoopTop? && !s.paused && s.sm < s.quick && s.sm + 1 < s.next
    requires Ends(AfterEntry(s, t), t, states, actions)
    ensures Ends(s, t, states', actions')
  {
    var s1 := RunOp(s, t, CheckQuick);
    var s2 := RunOp(s1, t, CheckEnd);
    var s3 := RunOp(s2, t, CheckTime(false));
    var s4 := RunOp(s3, t, CheckPause);
    var s5 := RunOp(s4, t, BeginApply);
    var s6 := RunOp(s5, t, EndApply);
    var s7 := RunOp(s6, t, Advance);
    assert s7.pcs == AfterEntry(s, t).pcs;
    assert s7 == AfterEntry(s, t);
    hide Ends, RunOp;
    EndsLater(s6, t, Advance, states, actions);
    states', actions' := [s6] + states, [Exec(t, Advance)] + actions;
    EndsLater(s5, t, EndApply, states', actions');
    states', actions' := [s5] + states', [Exec(t, EndApply)] + actions';
    EndsLater(s4, t, BeginApply, states', actions');
    states', actions' := [s4] + states', [Exec(t, BeginApply)] + actions';
    EndsLater(s3, t, CheckPause, states', actions');
    states', actions' := [s3] + states', [Exec(t, CheckPause)] + actions';
    EndsLater(s2, t, CheckTime(false), states', actions');
    states', actions' := [s2] + states', [Exec(t, CheckTime(false))] + actions';
    EndsLater(s1, t, CheckEnd, states', actions');
    states', actions' := [s1] + states', [Exec(t, CheckEnd)] + actions';
    EndsLater(s, t, CheckQuick, states', actions');
    states', actions' := [s] + states', [Exec(t, CheckQuick)] + actions';
  }

  lemma {:induction false} LoopEnds(s: State, t: nat) returns (states: seq<State>, actions: seq<Action>)
    requires t < |s.pcs| && s.pcs[t].LoopTop? && !s.paused
    ensures Ends(s, t, states, actions)
    decreases if s.sm < s.quick then s.quick - s.sm else 0
  {
    hide Ends;
    var s1 := RunOp(s, t, CheckQuick);
    if s.sm >= s.quick {
      EndsNow(s1, t);
      EndsLater(s, t, CheckQuick, [s1], []);
      states, actions := [s] + [s1], [Exec(t, CheckQuick)] + [];
    } else if s.sm + 1 >= s.next {
      var s2 := RunOp(s1, t, CheckEnd);
      EndsNow(s2, t);
      EndsLater(s1, t, CheckEnd, [s2], []);
      states, actions := [s1] + [s2], [Exec(t, CheckEnd)] + [];
      EndsLater(s, t, CheckQuick, states, actions);
      states, actions := [s] + states, [Exec(t, CheckQuick)] + actions;
    } else {
      states, actions := LoopEnds(AfterEntry(s, t), t);
      states, actions := EntryEnds(s, t, states, actions);
    }
  }

  /** A thread that finds the lock free and execution not paused has such a pass. */
  lemma PassExists(s: State, t: nat) returns (states: seq<State>, actions: seq<Action>)
    requires t < |s.pcs| && s.pcs[t] == Out && s.lock == None && !s.paused
    ensures Ends(s, t, states, actions)
  {
    hide Ends;
    var s1 := RunOp(s, t, TryLock);
    var s2 := RunOp(s1, t, SetFlag);
    states, actions := LoopEnds(RunOp(s2, t, Adjust), t);
    EndsLater(s2, t, Adjust, states, actions);
    states, actions := [s2] + states, [Exec(t, Adjust)] + actions;
    EndsLater(s1, t, SetFlag, states, actions);
    states, actions := [s1] + states, [Exec(t, SetFlag)] + actions;
    EndsLater(s, t, TryLock, states, actions);
    states, actions := [s] + states, [Exec(t, TryLock)] + actions;
  }
}
