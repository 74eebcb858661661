/**
 What the other writers do to the commit executor's picture of the server: the append handler of
 the protocol, compaction of the log store and a snapshot install are runs of its actions.
 */
module ExecView {
  import opened Basics
  import opened LogEntries
  import opened LogStore
  import opened Raft
  import opened CommitExec
  import opened CommitPass

  predicate CanAll(e: State, actions: seq<Action>)
    decreases |actions|
  {
    actions == [] || (Enabled(e, actions[0]) && CanAll(Step(e, actions[0]), actions[1..]))
  }

  function AfterAll(e: State, actions: seq<Action>): State
    requires CanAll(e, actions)
    decreases |actions|
  {
    if actions == [] then e else AfterAll(Step(e, actions[0]), actions[1..])
  }

  // ----- the append handler

  /** Applied index, commit index and first free index are those of the server. */
  predicate Shows(e: State, s: Server) {
    e.sm == s.smCommit && e.quick == s.quickCommit && e.next == |s.log| + 1
  }

  function Appends(n: nat): seq<Action> {
    if n == 0 then [] else [Append] + Appends(n - 1)
  }

  /** The writes of a request that is accepted: roll back and overwrite if entries are replaced, append, commit. */
  function Writes(s: Server, m: AppendReq): seq<Action>
    requires m.prevIdx <= |s.log|
  {
    var k := SkipCount(s.log, m.prevIdx, m.entries);
    var keep := m.prevIdx + k;
    var commit := [RaiseQuick(Min(m.commit, m.prevIdx + |m.entries|))];
    if k == |m.entries| then commit
    else if keep == |s.log| then Appends(|m.entries| - k) + commit
    else [LowerQuick(keep)] + ([LowerSm(keep)] + ([Overwrite(keep)] + (Appends(|m.entries| - k - 1) + commit)))
  }

  lemma {:induction false} AfterAppends(e: State, n: nat, commit: nat)
    ensures CanAll(e, Appends(n) + [RaiseQuick(commit)])
    ensures AfterAll(e, Appends(n) + [RaiseQuick(commit)]) == e.(next := e.next + n, quick := Max(e.quick, commit))
    decreases n
  {
    if n == 0 {
      assert Appends(0) + [RaiseQuick(commit)] == [RaiseQuick(commit)];
      assert CanAll(Step(e, RaiseQuick(commit)), []);
    } else {
      AfterAppends(Step(e, Append), n - 1, commit);
      assert (Appends(n) + [RaiseQuick(commit)])[1..] == Appends(n - 1) + [RaiseQuick(commit)];
    }
  }

  lemma AfterOne(e: State, a: Action, rest: seq<Action>)
    requires Enabled(e, a) && CanAll(Step(e, a), rest)
    ensures CanAll(e, [a] + rest) && AfterAll(e, [a] + rest) == AfterAll(Step(e, a), rest)
  {
    hide Enabled, Step;
    assert ([a] + rest)[1..] == rest;
  }

  lemma RollbackSteps(e: State, keep: nat)
    requires keep + 1 < e.next
    ensures Enabled(e, LowerQuick(keep)) && Enabled(Step(e, LowerQuick(keep)), LowerSm(keep))
    ensures var e2 := Step(Step(e, LowerQuick(keep)), LowerSm(keep));
            && Enabled(e2, Overwrite(keep))
            && Step(e2, Overwrite(keep)) == e.(quick := Min(e.quick, keep), sm := Min(e.sm, keep), next := keep + 2)
  {
  }

  lemma AfterRollback(e: State, keep: nat, rest: seq<Action>)
    requires keep + 1 < e.next
    requires CanAll(e.(quick := Min(e.quick, keep), sm := Min(e.sm, keep), next := keep + 2), rest)
    ensures var all := [LowerQuick(keep)] + ([LowerSm(keep)] + ([Overwrite(keep)] + rest));
            CanAll(e, all) &&
            AfterAll(e, all) == AfterAll(e.(quick := Min(e.quick, keep), sm := Min(e.sm, keep), next := keep + 2), rest)
  {
    hide CanAll, AfterAll, Step, Enabled;
    RollbackSteps(e, keep);
    var e1 := Step(e, LowerQuick(keep));
    var e2 := Step(e1, LowerSm(keep));
    AfterOne(e2, Overwrite(keep), rest);
    AfterOne(e1, LowerSm(keep), [Overwrite(keep)] + rest);
    AfterOne(e, LowerQuick(keep), [LowerSm(keep)] + ([Overwrite(keep)] + rest));
  }

  /** Handling an accepted request is such a run: the executor sees just these writes. */
  lemma HandlerIsWrites(s: Server, m: AppendReq, e: State)
    requires Accepts(s, m, false) && Shows(e, s)
    ensures m.prevIdx <= |s.log| && CanAll(e, Writes(s, m))
    ensures Shows(AfterAll(e, Writes(s, m)), HandleAppend(s, m, false, None).0)
  {
    hide SkipCount, CanAll, AfterAll, Appends, HandleAppend, LogOkay, Step, Enabled;
    AcceptsInside(s, m);
    var k := SkipCount(s.log, m.prevIdx, m.entries);
    var (keep, commit) := (m.prevIdx + k, Min(m.commit, m.prevIdx + |m.entries|));
    AfterHandler(s, m);
    if k == |m.entries| {
      AfterAppends(e, 0, commit);
      NoAppends(commit);
    } else if keep == |s.log| {
      AfterAppends(e, |m.entries| - k, commit);
    } else {
      var e1 := e.(quick := Min(e.quick, keep), sm := Min(e.sm, keep), next := keep + 2);
      AfterAppends(e1, |m.entries| - k - 1, commit);
      AfterRollback(e, keep, Appends(|m.entries| - k - 1) + [RaiseQuick(commit)]);
    }
  }

  lemma AcceptsInside(s: Server, m: AppendReq)
    requires Accepts(s, m, false)
    ensures m.prevIdx <= |s.log|
  {
  }

  lemma NoAppends(commit: nat)
    ensures Appends(0) + [RaiseQuick(commit)] == [RaiseQuick(commit)]
  {
  }

  lemma AfterHandler(s: Server, m: AppendReq)
    requires Accepts(s, m, false) && m.prevIdx <= |s.log|
    ensures var s' := HandleAppend(s, m, false, None).0;
            var k := SkipCount(s.log, m.prevIdx, m.entries);
            var (keep, cuts) := (m.prevIdx + k, k < |m.entries| && m.prevIdx + k < |s.log|);
            && |s'.log| == (if k == |m.entries| then |s.log| else m.prevIdx + |m.entries|)
            && s'.smCommit == (if cuts then Min(s.smCommit, keep) else s.smCommit)
            && s'.quickCommit == Max(if cuts then Min(s.quickCommit, keep) else s.quickCommit,
                                     Min(m.commit, m.prevIdx + |m.entries|))
  {
    hide SkipCount;
    assert m.entries[..|m.entries|] == m.entries;
  }

  // ----- the log store

  /** Where the store starts after its entries up to `last` are gone. */
  function FirstAfter(start: nat, last: nat): nat {
    if start <= last then last + 1 else start
  }

  /** First index and first free index are those of the store. */
  predicate Mirrors(e: State, slots: Slots, start: nat)
    requires slots != map[]
  {
    e.start == start && e.next == NextSlot(slots, start)
  }

  lemma CompactedStore(slots: Slots, start: nat, last: nat)
    requires StoreOk(slots, start)
    ensures var (first, slots') := (FirstAfter(start, last), Outside(slots, start, FirstAfter(start, last)));
            && slots' != map[] && first == Max(start, last + 1)
            && NextSlot(slots', first) == Max(NextSlot(slots, start), last + 1)
  {
    hide Contents;
    CompactedContents(slots, start, FirstAfter(start, last));
  }

  /** Compacting the store is the executor's action of that name. */
  lemma CompactionIsAction(slots: Slots, start: nat, last: nat, e: State)
    requires StoreOk(slots, start) && Mirrors(e, slots, start) && last <= e.sm
    ensures var first := FirstAfter(start, last);
            && Outside(slots, start, first) != map[]
            && Mirrors(Step(e, Compact(last)), Outside(slots, start, first), first)
  {
    CompactedStore(slots, start, last);
  }

  /** An install compacts the store up to the snapshot and continues from there. */
  lemma InstallIsAction(slots: Slots, start: nat, idx: nat, e: State)
    requires StoreOk(slots, start) && Mirrors(e, slots, start) && e.pauser == Paused
    ensures var first := FirstAfter(start, idx);
            && Outside(slots, start, first) != map[]
            && Mirrors(Step(e, Install(idx)), Outside(slots, start, first), first)
            && Step(e, Install(idx)).sm == Step(e, Install(idx)).quick == idx
  {
    CompactedStore(slots, start, idx);
  }

  /** The next pass after an install applies the entries after the snapshot and nothing before them. */
  lemma InstallThenPass(e: State, idx: nat, commit: nat, states: seq<State>, actions: seq<Action>, t: nat, i: nat)
    requires e.pauser == Paused && e.start <= idx + 1 && idx <= commit < e.next
    requires IsRun(states, actions) && i < |states| && t < |e.pcs| && e.pcs[t] == Out
    requires states[0] == Step(Step(Step(e, Install(idx)), Resume), RaiseQuick(commit))
    requires forall k :: 0 <= k < |actions| ==> Alone(actions[k], t)
    requires t < |states[i].pcs| && states[i].pcs[t] == Leaving
    ensures states[i].sm == commit && states[i].applied == e.applied + Between(idx, commit)
  {
    hide IsRun;
    PassAppliesAll(states, actions, t, i);
  }
}
