/**
 Calls into the state machine while entries enter and leave the log: pre-commit when an
 application entry is stored, rollback, newest first, when it is about to be overwritten.
 */
module SmCalls {
  import opened Basics
  import opened LogEntries
  import opened Raft

  datatype SmCall = PreCommit(idx: nat, data: seq<byte>) | Rollback(idx: nat, data: seq<byte>)

  type Stack = seq<(nat, seq<byte>)>

  predicate IsApp(e: LogEntry) { e.valType == APP_LOG }

  // ----- calls made by the handlers

  /** A follower announces application entries only. */
  function Announce(idx: nat, e: LogEntry): seq<SmCall> {
    if IsApp(e) then [PreCommit(idx, e.payload)] else []
  }

  function Retract(idx: nat, e: LogEntry): seq<SmCall> {
    if IsApp(e) then [Rollback(idx, e.payload)] else []
  }

  function PreCommits(from: nat, entries: seq<LogEntry>): seq<SmCall>
    decreases |entries|
  {
    if entries == [] then [] else Announce(from + 1, entries[0]) + PreCommits(from + 1, entries[1..])
  }

  /** Client side: every entry is announced, whatever its type. */
  function ClientPreCommits(from: nat, entries: seq<LogEntry>): seq<SmCall>
    decreases |entries|
  {
    if entries == [] then []
    else [PreCommit(from + 1, entries[0].payload)] + ClientPreCommits(from + 1, entries[1..])
  }

  /** Entries above `keep`, from the last one down. */
  function Rollbacks(log: Log, keep: nat): seq<SmCall>
    requires keep <= |log|
    decreases |log|
  {
    if |log| == keep then [] else Retract(|log|, log[|log| - 1]) + Rollbacks(log[..|log| - 1], keep)
  }

  /** Calls of an append request whose entries are all written. */
  function AppendCalls(log: Log, prev: nat, entries: seq<LogEntry>): seq<SmCall>
    requires prev <= |log|
  {
    var k := SkipCount(log, prev, entries);
    if k == |entries| then [] else Rollbacks(log, prev + k) + PreCommits(prev + k, entries[k..])
  }

  // ----- what a state machine that pushes and pops sees

  /** A rollback must name the entry pre-committed last. */
  function Replay(stack: Stack, calls: seq<SmCall>): Option<Stack>
    decreases |calls|
  {
    if calls == [] then Some(stack)
    else
      match calls[0]
      case PreCommit(i, d) => Replay(stack + [(i, d)], calls[1..])
      case Rollback(i, d) =>
        if stack != [] && stack[|stack| - 1] == (i, d) then Replay(stack[..|stack| - 1], calls[1..]) else None
  }

  /** The log's application entries in order, with their indexes. */
  function AppEntries(log: Log): Stack {
    if log == [] then []
    else
      var e := log[|log| - 1];
      AppEntries(log[..|log| - 1]) + (if IsApp(e) then [(|log|, e.payload)] else [])
  }

  lemma AppEntriesPush(log: Log, e: LogEntry)
    ensures AppEntries(log + [e]) == if IsApp(e) then AppEntries(log) + [(|log| + 1, e.payload)] else AppEntries(log)
  {
    var log1 := log + [e];
    assert log1[..|log1| - 1] == log && log1[|log1| - 1] == e;
  }

  /** The stack names every entry of the application's type (1), and only those, from the oldest to the newest. */
  lemma {:induction false} AppEntriesAre(log: Log)
    ensures forall x :: x in AppEntries(log) <==>
              1 <= x.0 <= |log| && log[x.0 - 1].valType == 1 && x.1 == log[x.0 - 1].payload
    ensures forall a, b :: 0 <= a < b < |AppEntries(log)| ==> AppEntries(log)[a].0 < AppEntries(log)[b].0
    decreases |log|
  {
    if log == [] {
    } else {
      var (log1, stack1) := (log[..|log| - 1], AppEntries(log[..|log| - 1]));
      AppEntriesAre(log1);
      assert forall a :: 0 <= a < |stack1| ==> stack1[a] in stack1;
    }
  }

  lemma {:induction false} ReplayConcat(stack: Stack, a: seq<SmCall>, b: seq<SmCall>)
    ensures Replay(stack, a + b) == (var r := Replay(stack, a); if r.Some? then Replay(r.value, b) else None)
    decreases |a|
  {
    if a == [] {
      assert a + b == b;
    } else {
      assert (a + b)[1..] == a[1..] + b;
      match a[0]
      case PreCommit(i, d) => ReplayConcat(stack + [(i, d)], a[1..], b);
      case Rollback(i, d) =>
        if stack != [] && stack[|stack| - 1] == (i, d) { ReplayConcat(stack[..|stack| - 1], a[1..], b); }
    }
  }

  lemma ReplayAnnounce(log: Log, e: LogEntry)
    ensures Replay(AppEntries(log), Announce(|log| + 1, e)) == Some(AppEntries(log + [e]))
  {
    AppEntriesPush(log, e);
  }

  lemma ReplayRetract(log: Log, e: LogEntry)
    ensures Replay(AppEntries(log + [e]), Retract(|log| + 1, e)) == Some(AppEntries(log))
  {
    AppEntriesPush(log, e);
  }

  lemma ReplayNone(stack: Stack)
    ensures Replay(stack, []) == Some(stack)
  {
  }

  lemma PreCommitsStep(from: nat, entries: seq<LogEntry>)
    ensures PreCommits(from, entries) ==
            if entries == [] then [] else Announce(from + 1, entries[0]) + PreCommits(from + 1, entries[1..])
  {
  }

  lemma RollbacksStep(log: Log, keep: nat)
    requires keep <= |log|
    ensures Rollbacks(log, keep) ==
            if |log| == keep then [] else Retract(|log|, log[|log| - 1]) + Rollbacks(log[..|log| - 1], keep)
  {
  }

  lemma {:induction false} ReplayPreCommits(log: Log, entries: seq<LogEntry>)
    ensures Replay(AppEntries(log), PreCommits(|log|, entries)) == Some(AppEntries(log + entries))
    decreases |entries|
  {
    hide AppEntries, Replay, PreCommits, Announce;
    PreCommitsStep(|log|, entries);
    if entries == [] {
      ReplayNone(AppEntries(log));
      assert log + entries == log;
    } else {
      var log1 := log + [entries[0]];
      assert log1 + entries[1..] == log + entries;
      ReplayAnnounce(log, entries[0]);
      ReplayPreCommits(log1, entries[1..]);
      ReplayConcat(AppEntries(log), Announce(|log| + 1, entries[0]), PreCommits(|log1|, entries[1..]));
    }
  }

  lemma {:induction false} ReplayRollbacks(log: Log, keep: nat)
    requires keep <= |log|
    ensures Replay(AppEntries(log), Rollbacks(log, keep)) == Some(AppEntries(log[..keep]))
    decreases |log|
  {
    hide AppEntries, Replay, Rollbacks, Retract;
    RollbacksStep(log, keep);
    if |log| == keep {
      ReplayNone(AppEntries(log));
      assert log[..keep] == log;
    } else {
      var (log1, e) := (log[..|log| - 1], log[|log| - 1]);
      assert log1 + [e] == log && log1[..keep] == log[..keep];
      ReplayRetract(log1, e);
      ReplayRollbacks(log1, keep);
      ReplayConcat(AppEntries(log), Retract(|log|, e), Rollbacks(log1, keep));
    }
  }

  /** A request that is already stored leaves the stack alone. */
  lemma {:induction false} ReplayStored(log: Log, prev: nat, entries: seq<LogEntry>)
    requires prev <= |log| && SkipCount(log, prev, entries) == |entries|
    ensures Replay(AppEntries(log), AppendCalls(log, prev, entries)) == Some(AppEntries(Merge(log, prev, entries)))
  {
    hide AppEntries, SkipCount, PreCommits, Rollbacks;
  }

  /** A request with a new entry takes the stack down to the part kept and up to the part written. */
  lemma {:induction false} ReplayWritten(log: Log, prev: nat, entries: seq<LogEntry>, k: nat)
    requires prev + k <= |log| && k < |entries|
    ensures Replay(AppEntries(log), Rollbacks(log, prev + k) + PreCommits(prev + k, entries[k..]))
            == Some(AppEntries(log[..prev + k] + entries[k..]))
  {
    hide AppEntries, PreCommits, Rollbacks, Replay;
    var kept := log[..prev + k];
    assert |kept| == prev + k;
    ReplayRollbacks(log, prev + k);
    ReplayPreCommits(kept, entries[k..]);
    ReplayConcat(AppEntries(log), Rollbacks(log, prev + k), PreCommits(prev + k, entries[k..]));
  }

  /** An append request turns the stack of the old log into the stack of the new one. */
  lemma {:induction false} ReplayAppend(log: Log, prev: nat, entries: seq<LogEntry>)
    requires prev <= |log|
    ensures Replay(AppEntries(log), AppendCalls(log, prev, entries)) == Some(AppEntries(Merge(log, prev, entries)))
  {
    hide AppEntries, PreCommits, Rollbacks, Replay, SkipCount;
    var k := SkipCount(log, prev, entries);
    if k == |entries| {
      ReplayStored(log, prev, entries);
    } else {
      ReplayWritten(log, prev, entries, k);
    }
  }

  /** A duplicated or stale shorter request makes no calls and truncates nothing. */
  lemma StaleRequestIsSilent(log: Log, prev: nat, entries: seq<LogEntry>)
    requires prev + |entries| <= |log|
    requires forall i :: 0 <= i < |entries| ==> log[prev + i].term == entries[i].term
    ensures AppendCalls(log, prev, entries) == [] && Merge(log, prev, entries) == log
  {
  }

  // ----- whole histories

  /** What can happen to a log: a client batch, a new leader's config entry, an append request. */
  datatype LogOp =
    | Client(entries: seq<LogEntry>)
    | OwnConf(conf: LogEntry)
    | Append(prev: nat, entries: seq<LogEntry>)

  predicate OpOk(log: Log, op: LogOp) {
    match op
    case Client(_) => true
    case OwnConf(e) => e.valType == CONF
    case Append(prev, _) => prev <= |log|
  }

  function OpLog(log: Log, op: LogOp): Log
    requires OpOk(log, op)
  {
    match op
    case Client(entries) => log + entries
    case OwnConf(e) => log + [e]
    case Append(prev, entries) => Merge(log, prev, entries)
  }

  function OpCalls(log: Log, op: LogOp): seq<SmCall>
    requires OpOk(log, op)
  {
    match op
    case Client(entries) => ClientPreCommits(|log|, entries)
    case OwnConf(_) => []
    case Append(prev, entries) => AppendCalls(log, prev, entries)
  }

  ghost predicate IsHistory(log: Log, ops: seq<LogOp>)
    decreases |ops|
  {
    ops == [] || (OpOk(log, ops[0]) && IsHistory(OpLog(log, ops[0]), ops[1..]))
  }

  ghost function LogAfter(log: Log, ops: seq<LogOp>): Log
    requires IsHistory(log, ops)
    decreases |ops|
  {
    if ops == [] then log else LogAfter(OpLog(log, ops[0]), ops[1..])
  }

  ghost function CallsOf(log: Log, ops: seq<LogOp>): seq<SmCall>
    requires IsHistory(log, ops)
    decreases |ops|
  {
    if ops == [] then [] else OpCalls(log, ops[0]) + CallsOf(OpLog(log, ops[0]), ops[1..])
  }

  /** Client entries that are not application entries; the public API never creates any. */
  function Odd(entries: seq<LogEntry>): nat {
    if entries == [] then 0 else (if IsApp(entries[0]) then 0 else 1) + Odd(entries[1..])
  }

  function OddOf(ops: seq<LogOp>): nat {
    if ops == [] then 0 else (if ops[0].Client? then Odd(ops[0].entries) else 0) + OddOf(ops[1..])
  }

  /** Pushes minus pops. */
  function Balance(calls: seq<SmCall>): int {
    if calls == [] then 0 else (if calls[0].PreCommit? then 1 else -1) + Balance(calls[1..])
  }

  lemma {:induction false} ReplayLength(stack: Stack, calls: seq<SmCall>)
    ensures Replay(stack, calls).Some? ==> |Replay(stack, calls).value| == |stack| + Balance(calls)
    decreases |calls|
  {
    if calls == [] {
    } else {
      match calls[0]
      case PreCommit(i, d) => ReplayLength(stack + [(i, d)], calls[1..]);
      case Rollback(i, d) => if stack != [] { ReplayLength(stack[..|stack| - 1], calls[1..]); }
    }
  }

  lemma {:induction false} BalanceConcat(a: seq<SmCall>, b: seq<SmCall>)
    ensures Balance(a + b) == Balance(a) + Balance(b)
  {
    if a == [] {
      assert a + b == b;
    } else {
      assert (a + b)[1..] == a[1..] + b;
      BalanceConcat(a[1..], b);
    }
  }

  lemma {:induction false} ClientReplay(log: Log, entries: seq<LogEntry>)
    requires Odd(entries) == 0
    ensures ClientPreCommits(|log|, entries) == PreCommits(|log|, entries)
    decreases |entries|
  {
    if entries == [] {
    } else {
      ClientReplay(log + [entries[0]], entries[1..]);
    }
  }

  lemma {:induction false} ClientBalance(log: Log, entries: seq<LogEntry>)
    ensures Balance(ClientPreCommits(|log|, entries)) == |AppEntries(log + entries)| - |AppEntries(log)| + Odd(entries)
    decreases |entries|
  {
    if entries == [] {
      assert log + entries == log;
    } else {
      var log1 := log + [entries[0]];
      AppEntriesPush(log, entries[0]);
      assert log1 + entries[1..] == log + entries;
      ClientBalance(log1, entries[1..]);
      assert ClientPreCommits(|log|, entries)[1..] == ClientPreCommits(|log1|, entries[1..]);
    }
  }

  lemma OpBalance(log: Log, op: LogOp)
    requires OpOk(log, op)
    ensures Balance(OpCalls(log, op)) ==
            |AppEntries(OpLog(log, op))| - |AppEntries(log)| + (if op.Client? then Odd(op.entries) else 0)
  {
    match op
    case Client(entries) => ClientBalance(log, entries);
    case OwnConf(e) => AppEntriesPush(log, e);
    case Append(prev, entries) =>
      ReplayAppend(log, prev, entries);
      ReplayLength(AppEntries(log), AppendCalls(log, prev, entries));
  }

  lemma OpReplay(log: Log, op: LogOp)
    requires OpOk(log, op) && (op.Client? ==> Odd(op.entries) == 0)
    ensures Replay(AppEntries(log), OpCalls(log, op)) == Some(AppEntries(OpLog(log, op)))
  {
    match op
    case Client(entries) =>
      ClientReplay(log, entries);
      ReplayPreCommits(log, entries);
    case OwnConf(e) => AppEntriesPush(log, e);
    case Append(prev, entries) => ReplayAppend(log, prev, entries);
  }

  lemma {:induction false} HistoryBalance(log: Log, ops: seq<LogOp>)
    requires IsHistory(log, ops)
    ensures Balance(CallsOf(log, ops)) == |AppEntries(LogAfter(log, ops))| - |AppEntries(log)| + OddOf(ops)
    decreases |ops|
  {
    if ops == [] {
    } else {
      var log1 := OpLog(log, ops[0]);
      OpBalance(log, ops[0]);
      HistoryBalance(log1, ops[1..]);
      BalanceConcat(OpCalls(log, ops[0]), CallsOf(log1, ops[1..]));
    }
  }

  lemma {:induction false} HistoryReplay(log: Log, ops: seq<LogOp>)
    requires IsHistory(log, ops) && OddOf(ops) == 0
    ensures Replay(AppEntries(log), CallsOf(log, ops)) == Some(AppEntries(LogAfter(log, ops)))
    decreases |ops|
  {
    if ops == [] {
    } else {
      var log1 := OpLog(log, ops[0]);
      OpReplay(log, ops[0]);
      HistoryReplay(log1, ops[1..]);
      ReplayConcat(AppEntries(log), OpCalls(log, ops[0]), CallsOf(log1, ops[1..]));
    }
  }

  /**
   From an empty log, pushing on pre-commit and popping on rollback leaves exactly the log's
   application entries in order, if and only if clients sent application entries only.
   */
  lemma CallsFormStackIff(ops: seq<LogOp>)
    requires IsHistory([], ops)
    ensures Replay([], CallsOf([], ops)) == Some(AppEntries(LogAfter([], ops))) <==> OddOf(ops) == 0
  {
    if OddOf(ops) == 0 {
      HistoryReplay([], ops);
    } else {
      HistoryBalance([], ops);
      ReplayLength([], CallsOf([], ops));
    }
  }

  /** One configuration entry from a client is pre-committed and leaves the stack too high. */
  lemma ClientConfBreaksStack(e: LogEntry)
    requires e.valType == CONF
    ensures IsHistory([], [Client([e])])
    ensures Replay([], CallsOf([], [Client([e])])) != Some(AppEntries(LogAfter([], [Client([e])])))
  {
    CallsFormStackIff([Client([e])]);
  }
}
