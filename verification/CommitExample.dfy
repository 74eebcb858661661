/** A run in which an executor's call is not recorded, because the append handler rolls back meanwhile. */
module CommitExample {
  import opened Basics
  import opened CommitExec

  function Busy1(pc: Pc): State {
    State([pc], Some(0), true, false, Running, 1, 2, 1, 3, [])
  }

  lemma LoopReachesCall() returns (states: seq<State>, actions: seq<Action>)
    ensures IsRun(states, actions) && |actions| == 5 && states[0] == Busy1(LoopTop(true))
    ensures actions[4] == Exec(0, BeginApply) && states[5] == Busy1(Applying(2)).(applied := [2])
  {
    var s0 := Busy1(LoopTop(true));
    var s1 := Step(s0, Exec(0, CheckQuick));
    var s2 := Step(s1, Exec(0, CheckEnd));
    var s3 := Step(s2, Exec(0, CheckTime(false)));
    var s4 := Step(s3, Exec(0, CheckPause));
    var s5 := Step(s4, Exec(0, BeginApply));
    assert s5 == Busy1(Applying(2)).(applied := [2]);
    hide Step, Enabled, IsRun;
    Still(s5);
    states, actions := [s5], [];
    RunPrepend(s4, Exec(0, BeginApply), states, actions);
    states, actions := [s4] + states, [Exec(0, BeginApply)] + actions;
    RunPrepend(s3, Exec(0, CheckPause), states, actions);
    states, actions := [s3] + states, [Exec(0, CheckPause)] + actions;
    RunPrepend(s2, Exec(0, CheckTime(false)), states, actions);
    states, actions := [s2] + states, [Exec(0, CheckTime(false))] + actions;
    RunPrepend(s1, Exec(0, CheckEnd), states, actions);
    states, actions := [s1] + states, [Exec(0, CheckEnd)] + actions;
    RunPrepend(s0, Exec(0, CheckQuick), states, actions);
    states, actions := [s0] + states, [Exec(0, CheckQuick)] + actions;
  }

  /** One thread, index 2 committed and index 1 applied. */
  lemma CallBegins() returns (states: seq<State>, actions: seq<Action>)
    ensures IsRun(states, actions) && |actions| == 8 && states[0] == Init(1, 1, 2, 1, 3)
    ensures actions[7] == Exec(0, BeginApply) && states[8] == Busy1(Applying(2)).(applied := [2])
  {
    var s0 := Init(1, 1, 2, 1, 3);
    assert s0.pcs == [Out];
    var s1 := Step(s0, Exec(0, TryLock));
    var s2 := Step(s1, Exec(0, SetFlag));
    var s3 := Step(s2, Exec(0, Adjust));
    assert s3 == Busy1(LoopTop(true));
    hide Step, Enabled, IsRun;
    states, actions := LoopReachesCall();
    RunPrepend(s2, Exec(0, Adjust), states, actions);
    states, actions := [s2] + states, [Exec(0, Adjust)] + actions;
    RunPrepend(s1, Exec(0, SetFlag), states, actions);
    states, actions := [s1] + states, [Exec(0, SetFlag)] + actions;
    RunPrepend(s0, Exec(0, TryLock), states, actions);
    states, actions := [s0] + states, [Exec(0, TryLock)] + actions;
  }

  /** The handler rolls back to 0 while the call for index 2 runs; the index stays at 0 afterwards. */
  lemma AdvanceCanFail() returns (states: seq<State>, actions: seq<Action>)
    ensures IsRun(states, actions) && Starts(states[0])
    ensures var s := states[|states| - 1];
            |s.pcs| == 1 && s.pcs[0] == Applied(2) && Step(s, Exec(0, Advance)).sm == 0
  {
    states, actions := CallBegins();
    RunExtend(states, actions, LowerSm(0));
    states, actions := states + [Step(states[8], LowerSm(0))], actions + [LowerSm(0)];
    RunExtend(states, actions, Exec(0, EndApply));
    states, actions := states + [Step(states[9], Exec(0, EndApply))], actions + [Exec(0, EndApply)];
  }
}
