/**
 The in-memory log store: a map from index to entry, a dummy entry at index 0 and a start
 index. It refines a start index plus a sequence of entries.
 */
module LogStore {
  import opened LogEntries

  type Slots = map<nat, LogEntry>

  // ----- the map as a start index plus a sequence

  /** Index 0 and the interval of `n` indexes from `start` are stored, and nothing else. */
  ghost predicate Dense(slots: Slots, start: nat, n: nat) {
    && 1 <= start
    && 0 in slots && slots[0].term == 0
    && forall i: nat :: i in slots <==> i == 0 || start <= i < start + n
  }

  ghost predicate StoreOk(slots: Slots, start: nat) {
    slots != map[] && Dense(slots, start, |slots| - 1)
  }

  /** The next free index, computed from the number of slots. */
  function NextSlot(slots: Slots, start: nat): nat
    requires slots != map[]
  {
    start + |slots| - 1
  }

  ghost function Contents(slots: Slots, start: nat): (log: Log)
    requires StoreOk(slots, start)
    ensures |log| == |slots| - 1
    ensures forall i :: 0 <= i < |log| ==> log[i] == slots[start + i]
  {
    seq(|slots| - 1, i requires 0 <= i < |slots| - 1 => slots[start + i])
  }

  function Interval(lo: nat, n: nat): (s: set<nat>)
    ensures |s| == n
    ensures forall i :: i in s <==> lo <= i < lo + n
  {
    if n == 0 then {} else Interval(lo, n - 1) + {lo + n - 1}
  }

  lemma DenseSize(slots: Slots, start: nat, n: nat)
    requires Dense(slots, start, n)
    ensures |slots| == n + 1 && StoreOk(slots, start)
  {
    assert slots.Keys == {0} + Interval(start, n);
    assert |slots.Keys| == |slots|;
  }

  lemma ContentsAre(slots: Slots, start: nat, log: Log)
    requires Dense(slots, start, |log|)
    requires forall i :: 0 <= i < |log| ==> slots[start + i] == log[i]
    ensures StoreOk(slots, start) && Contents(slots, start) == log
  {
    DenseSize(slots, start, |log|);
  }

  // ----- lookups

  /** The entry at an index, or the dummy entry. */
  function Lookup(slots: Slots, index: nat): LogEntry
    requires 0 in slots
  {
    if index in slots then slots[index] else slots[0]
  }

  /** The entries `from` up to but not including `to`, the dummy entry standing for missing ones. */
  function Range(slots: Slots, from: nat, to: nat): (entries: seq<LogEntry>)
    requires 0 in slots
    ensures |entries| == if from <= to then to - from else 0
    ensures forall i :: 0 <= i < |entries| ==> entries[i] == Lookup(slots, from + i)
  {
    if from >= to then [] else Range(slots, from, to - 1) + [Lookup(slots, to - 1)]
  }

  lemma LookupInside(slots: Slots, start: nat, index: nat)
    requires StoreOk(slots, start)
    ensures Lookup(slots, index) == if start <= index < NextSlot(slots, start) then Contents(slots, start)[index - start]
                                    else slots[0]
  {
  }

  /** A range within the log has no dummy entries. */
  lemma RangeInside(slots: Slots, start: nat, from: nat, to: nat)
    requires StoreOk(slots, start) && start <= from <= to <= NextSlot(slots, start)
    ensures Range(slots, from, to) == Contents(slots, start)[from - start..to - start]
  {
    hide Range;
    forall i | from <= i < to ensures Lookup(slots, i) == Contents(slots, start)[i - start] {
      LookupInside(slots, start, i);
    }
  }

  // ----- truncating writes

  function Below(slots: Slots, index: nat): Slots {
    map k | k in slots && k < index :: slots[k]
  }

  /** Every slot from `index` on is erased, then `index` is written. */
  function Written(slots: Slots, index: nat, e: LogEntry): Slots {
    Below(slots, index)[index := e]
  }

  lemma WrittenContents(slots: Slots, start: nat, index: nat, e: LogEntry)
    requires StoreOk(slots, start) && start <= index <= NextSlot(slots, start)
    ensures StoreOk(Written(slots, index, e), start)
    ensures Contents(Written(slots, index, e), start) == Contents(slots, start)[..index - start] + [e]
  {
    DenseSize(Written(slots, index, e), start, index - start + 1);
  }

  /** A write keeps the store an interval exactly when it is inside the log or just after it. */
  lemma WriteKeepsIff(slots: Slots, start: nat, index: nat, e: LogEntry)
    requires StoreOk(slots, start)
    ensures StoreOk(Written(slots, index, e), start) <==>
            start <= index <= NextSlot(slots, start) || (index == 0 && e.term == 0)
  {
    var w := Written(slots, index, e);
    if start <= index <= NextSlot(slots, start) {
      WrittenContents(slots, start, index, e);
    } else if index == 0 {
      assert w.Keys == {0};
      if e.term == 0 { DenseSize(w, start, 0); }
    } else if index < start {
      assert index in w;
    } else {
      assert index in w && index - 1 !in w;
    }
  }

  /** Writing at index 2 of an empty store leaves a gap. */
  lemma WriteLeavesGap(dummy: LogEntry, e: LogEntry)
    requires dummy.term == 0
    ensures StoreOk(map[0 := dummy], 1) && !StoreOk(Written(map[0 := dummy], 2, e), 1)
  {
    DenseSize(map[0 := dummy], 1, 0);
    WriteKeepsIff(map[0 := dummy], 1, 2, e);
  }

  // ----- compaction

  /** `slots` without the indexes from `lo` up to but not including `hi`. */
  function Outside(slots: Slots, lo: nat, hi: nat): Slots {
    map k | k in slots && !(lo <= k < hi) :: slots[k]
  }

  lemma CompactedContents(slots: Slots, start: nat, first: nat)
    requires StoreOk(slots, start) && start <= first
    ensures StoreOk(Outside(slots, start, first), first)
    ensures Contents(Outside(slots, start, first), first) ==
            if first < NextSlot(slots, start) then Contents(slots, start)[first - start..] else []
  {
    DenseSize(Outside(slots, start, first), first,
              if first < NextSlot(slots, start) then NextSlot(slots, start) - first else 0);
  }

  // ----- applying packed entries

  /** Packed entries are put at `index`, `index` + 1, and so on. */
  function Overlaid(slots: Slots, index: nat, pack: seq<LogEntry>): Slots {
    if pack == [] then slots else Overlaid(slots, index, pack[..|pack| - 1])[index + |pack| - 1 := pack[|pack| - 1]]
  }

  lemma {:induction false} OverlaidAt(slots: Slots, index: nat, pack: seq<LogEntry>)
    ensures forall k: nat :: k in Overlaid(slots, index, pack) <==> k in slots || index <= k < index + |pack|
    ensures forall k: nat :: index <= k < index + |pack| ==> Overlaid(slots, index, pack)[k] == pack[k - index]
    ensures forall k: nat :: k in slots && !(index <= k < index + |pack|) ==>
              Overlaid(slots, index, pack)[k] == slots[k]
  {
    if pack == [] {
    } else {
      OverlaidAt(slots, index, pack[..|pack| - 1]);
    }
  }

  lemma OverlaidSlot(slots: Slots, index: nat, pack: seq<LogEntry>, k: nat)
    ensures index <= k < index + |pack| ==>
              k in Overlaid(slots, index, pack) && Overlaid(slots, index, pack)[k] == pack[k - index]
    ensures k in slots && !(index <= k < index + |pack|) ==>
              k in Overlaid(slots, index, pack) && Overlaid(slots, index, pack)[k] == slots[k]
  {
    OverlaidAt(slots, index, pack);
  }

  /** The smallest stored index above 0, or 1. */
  ghost predicate IsFirst(slots: Slots, first: nat) {
    if forall k :: k in slots ==> k == 0 then first == 1
    else first in slots && first > 0 && forall k :: k in slots && k > 0 ==> first <= k
  }

  /** `n` entries at `index` touch or overlap what is stored. */
  predicate Touches(slots: Slots, start: nat, index: nat, n: nat)
    requires slots != map[]
  {
    n == 0 || |slots| == 1 || (index <= NextSlot(slots, start) && start <= index + n)
  }

  /** Where the packed entries that are not the dummy go; one put at index 0 replaces the dummy. */
  function PackBase(index: nat): nat { if index == 0 then 1 else index }

  function PackBody(index: nat, pack: seq<LogEntry>): seq<LogEntry> {
    if index == 0 && pack != [] then pack[1..] else pack
  }

  /** Packed entries fit if they touch what is stored and leave a dummy of term 0 in place. */
  predicate PackFits(slots: Slots, start: nat, index: nat, pack: seq<LogEntry>)
    requires slots != map[]
  {
    && Touches(slots, start, PackBase(index), |PackBody(index, pack)|)
    && (index == 0 && pack != [] ==> pack[0].term == 0)
  }

  /** Start index after applying `m` entries at `index` to `n` entries at `start`. */
  function PackedFirst(n: nat, start: nat, index: nat, m: nat): nat {
    if n == 0 then (if m == 0 then 1 else index)
    else if m > 0 && index < start then index
    else start
  }

  function PackedEnd(n: nat, start: nat, index: nat, m: nat): nat {
    if n == 0 then (if m == 0 then 1 else index + m)
    else if m == 0 || index + m < start + n then start + n
    else index + m
  }

  /** A packed entry where there is one, the old entry elsewhere. */
  ghost function PackedContents(log: Log, start: nat, index: nat, pack: seq<LogEntry>): (packed: Log)
    requires pack != [] && log != [] ==> index <= start + |log| && start <= index + |pack|
    ensures |packed| == PackedEnd(|log|, start, index, |pack|) - PackedFirst(|log|, start, index, |pack|)
  {
    var first := PackedFirst(|log|, start, index, |pack|);
    var n := PackedEnd(|log|, start, index, |pack|) - first;
    seq(n, i requires 0 <= i < n =>
      if index <= first + i < index + |pack| then pack[first + i - index] else log[first + i - start])
  }

  lemma PackedStart(slots: Slots, start: nat, index: nat, pack: seq<LogEntry>, first: nat)
    requires StoreOk(slots, start) && 0 < index
    requires IsFirst(Overlaid(slots, index, pack), first)
    ensures first == PackedFirst(|slots| - 1, start, index, |pack|)
  {
    OverlaidAt(slots, index, pack);
    if |slots| > 1 {
      assert start in slots;
    }
    if pack != [] {
      assert index in Overlaid(slots, index, pack);
    }
  }

  lemma PackedDense(slots: Slots, start: nat, index: nat, pack: seq<LogEntry>)
    requires StoreOk(slots, start) && 0 < index && Touches(slots, start, index, |pack|)
    ensures var first := PackedFirst(|slots| - 1, start, index, |pack|);
            Dense(Overlaid(slots, index, pack), first, PackedEnd(|slots| - 1, start, index, |pack|) - first)
  {
    OverlaidAt(slots, index, pack);
  }

  lemma PackedAt(log: Log, start: nat, index: nat, pack: seq<LogEntry>, i: nat)
    requires pack != [] && log != [] ==> index <= start + |log| && start <= index + |pack|
    requires i < |PackedContents(log, start, index, pack)|
    ensures var k := PackedFirst(|log|, start, index, |pack|) + i;
            if index <= k < index + |pack| then PackedContents(log, start, index, pack)[i] == pack[k - index]
            else start <= k < start + |log| && PackedContents(log, start, index, pack)[i] == log[k - start]
  {
  }

  lemma PackedSlot(slots: Slots, start: nat, index: nat, pack: seq<LogEntry>, i: nat)
    requires StoreOk(slots, start) && 0 < index && Touches(slots, start, index, |pack|)
    requires i < |PackedContents(Contents(slots, start), start, index, pack)|
    ensures PackedFirst(|slots| - 1, start, index, |pack|) + i in Overlaid(slots, index, pack)
    ensures Overlaid(slots, index, pack)[PackedFirst(|slots| - 1, start, index, |pack|) + i]
            == PackedContents(Contents(slots, start), start, index, pack)[i]
  {
    hide Overlaid, PackedContents, PackedFirst, PackedEnd;
    var (log, k) := (Contents(slots, start), PackedFirst(|slots| - 1, start, index, |pack|) + i);
    assert forall j :: 0 <= j < |log| ==> start + j in slots && slots[start + j] == log[j];
    hide Contents, StoreOk;
    PackedAt(log, start, index, pack, i);
    OverlaidSlot(slots, index, pack, k);
  }

  lemma PackedContentsOk(slots: Slots, start: nat, index: nat, pack: seq<LogEntry>, first: nat)
    requires StoreOk(slots, start) && 0 < index && Touches(slots, start, index, |pack|)
    requires IsFirst(Overlaid(slots, index, pack), first)
    ensures StoreOk(Overlaid(slots, index, pack), first)
    ensures Contents(Overlaid(slots, index, pack), first) ==
            PackedContents(Contents(slots, start), start, index, pack)
  {
    hide Overlaid, PackedContents, StoreOk, Contents, IsFirst;
    PackedStart(slots, start, index, pack, first);
    PackedDense(slots, start, index, pack);
    var over := Overlaid(slots, index, pack);
    var packed := PackedContents(Contents(slots, start), start, index, pack);
    forall i | 0 <= i < |packed| ensures over[first + i] == packed[i] {
      PackedSlot(slots, start, index, pack, i);
    }
    ContentsAre(over, first, packed);
  }

  lemma PackAboveKeepsIff(slots: Slots, start: nat, index: nat, pack: seq<LogEntry>, first: nat)
    requires StoreOk(slots, start) && 0 < index
    requires IsFirst(Overlaid(slots, index, pack), first)
    ensures StoreOk(Overlaid(slots, index, pack), first) <==> Touches(slots, start, index, |pack|)
  {
    var over := Overlaid(slots, index, pack);
    if Touches(slots, start, index, |pack|) {
      PackedContentsOk(slots, start, index, pack, first);
    } else {
      PackedStart(slots, start, index, pack, first);
      OverlaidAt(slots, index, pack);
      if index > NextSlot(slots, start) {
        assert index in over && index - 1 !in over && start in over;
      } else {
        assert start in over && start - 1 !in over && index in over;
      }
    }
  }

  // ----- the dummy entry replaced

  /** Packing at index 0 is replacing the dummy entry, then packing the rest at index 1. */
  lemma {:induction false} OverlaidHead(slots: Slots, pack: seq<LogEntry>)
    requires pack != []
    ensures Overlaid(slots, 0, pack) == Overlaid(slots[0 := pack[0]], 1, pack[1..])
  {
    OverlaidAt(slots, 0, pack);
    OverlaidAt(slots[0 := pack[0]], 1, pack[1..]);
  }

  lemma NewDummy(slots: Slots, start: nat, e: LogEntry)
    requires StoreOk(slots, start) && e.term == 0
    ensures StoreOk(slots[0 := e], start) && Contents(slots[0 := e], start) == Contents(slots, start)
    ensures |slots[0 := e]| == |slots|
  {
    DenseSize(slots[0 := e], start, |slots| - 1);
  }

  /** The slots seen as if the dummy had been replaced beforehand. */
  function WithDummy(slots: Slots, index: nat, pack: seq<LogEntry>): Slots {
    if index == 0 && pack != [] then slots[0 := pack[0]] else slots
  }

  lemma OverlaidBody(slots: Slots, index: nat, pack: seq<LogEntry>)
    ensures Overlaid(slots, index, pack) ==
            Overlaid(WithDummy(slots, index, pack), PackBase(index), PackBody(index, pack))
  {
    if index == 0 && pack != [] {
      OverlaidHead(slots, pack);
    }
  }

  lemma FirstOfKeys(a: Slots, b: Slots, first: nat)
    requires IsFirst(a, first) && a.Keys == b.Keys
    ensures IsFirst(b, first)
  {
    assert forall k :: k in a <==> k in b;
  }

  /** The new start index, whether the store stays an interval or not. */
  lemma PackedStartAny(slots: Slots, start: nat, index: nat, pack: seq<LogEntry>, first: nat)
    requires StoreOk(slots, start) && IsFirst(Overlaid(slots, index, pack), first)
    ensures first == PackedFirst(|slots| - 1, start, PackBase(index), |PackBody(index, pack)|)
  {
    hide IsFirst;
    var body := PackBody(index, pack);
    OverlaidAt(slots, index, pack);
    OverlaidAt(slots, PackBase(index), body);
    FirstOfKeys(Overlaid(slots, index, pack), Overlaid(slots, PackBase(index), body), first);
    PackedStart(slots, start, PackBase(index), body, first);
  }

  lemma PackedContentsAny(slots: Slots, start: nat, index: nat, pack: seq<LogEntry>, first: nat)
    requires StoreOk(slots, start) && PackFits(slots, start, index, pack)
    requires IsFirst(Overlaid(slots, index, pack), first)
    ensures StoreOk(Overlaid(slots, index, pack), first)
    ensures Contents(Overlaid(slots, index, pack), first) ==
            PackedContents(Contents(slots, start), start, PackBase(index), PackBody(index, pack))
  {
    hide IsFirst, Overlaid, PackedContents, StoreOk, Contents;
    OverlaidBody(slots, index, pack);
    if index == 0 && pack != [] { NewDummy(slots, start, pack[0]); }
    PackedContentsOk(WithDummy(slots, index, pack), start, PackBase(index), PackBody(index, pack), first);
  }

  lemma DummyTerm(slots: Slots, start: nat)
    ensures StoreOk(slots, start) ==> 0 in slots && slots[0].term == 0
  {
  }

  /** Applying packed entries keeps the store an interval exactly when they fit. */
  lemma PackKeepsIff(slots: Slots, start: nat, index: nat, pack: seq<LogEntry>, first: nat)
    requires StoreOk(slots, start) && IsFirst(Overlaid(slots, index, pack), first)
    ensures StoreOk(Overlaid(slots, index, pack), first) <==> PackFits(slots, start, index, pack)
  {
    hide IsFirst, Overlaid, StoreOk;
    if index == 0 && pack != [] && pack[0].term != 0 {
      OverlaidAt(slots, index, pack);
      assert Overlaid(slots, index, pack)[0] == pack[0];
      DummyTerm(Overlaid(slots, index, pack), first);
    } else {
      OverlaidBody(slots, index, pack);
      if index == 0 && pack != [] { NewDummy(slots, start, pack[0]); }
      PackAboveKeepsIff(WithDummy(slots, index, pack), start, PackBase(index), PackBody(index, pack), first);
    }
  }

  /** A pack at index 3 after a single entry at index 1 leaves a gap. */
  lemma PackLeavesGap(dummy: LogEntry, e: LogEntry)
    requires dummy.term == 0
    ensures StoreOk(map[0 := dummy, 1 := e], 1)
    ensures !StoreOk(Overlaid(map[0 := dummy, 1 := e], 3, [e]), 1)
  {
    var slots := map[0 := dummy, 1 := e];
    DenseSize(slots, 1, 1);
    OverlaidAt(slots, 3, [e]);
    PackKeepsIff(slots, 1, 3, [e], 1);
  }

  // ----- batches

  function Bytes(entries: seq<LogEntry>): nat {
    if entries == [] then 0 else Bytes(entries[..|entries| - 1]) + |entries[|entries| - 1].payload|
  }

  /** The shortest prefix reaching the size hint, or everything; nothing if the hint is negative. */
  ghost predicate IsBatch(whole: seq<LogEntry>, hint: int, batch: seq<LogEntry>) {
    && batch <= whole
    && (hint < 0 ==> batch == [])
    && (hint == 0 ==> batch == whole)
    && (hint > 0 ==> batch == whole || Bytes(batch) >= hint)
    && (hint > 0 && batch != [] ==> Bytes(batch[..|batch| - 1]) < hint)
  }

  /** A prefix that does not reach the hint yet. */
  ghost predicate PartBatch(whole: seq<LogEntry>, hint: int, batch: seq<LogEntry>) {
    batch <= whole && hint >= 0 && (hint > 0 ==> Bytes(batch) < hint)
  }

  lemma NoBatch(whole: seq<LogEntry>, hint: int)
    requires hint < 0
    ensures IsBatch(whole, hint, [])
  {
  }

  lemma EmptyBatch(whole: seq<LogEntry>, hint: int)
    requires hint >= 0
    ensures PartBatch(whole, hint, []) && Bytes([]) == 0
  {
  }

  /** One more entry either completes the batch or leaves it short of the hint. */
  lemma GrowBatch(whole: seq<LogEntry>, hint: int, batch: seq<LogEntry>, e: LogEntry)
    requires PartBatch(whole, hint, batch) && |batch| < |whole| && e == whole[|batch|]
    ensures Bytes(batch + [e]) == Bytes(batch) + |e.payload|
    ensures if hint != 0 && Bytes(batch + [e]) >= hint then IsBatch(whole, hint, batch + [e])
            else PartBatch(whole, hint, batch + [e])
  {
    hide Bytes;
    BytesPush(batch, e);
    var more := batch + [e];
    assert more == whole[..|more|];
    assert more[..|more| - 1] == batch;
  }

  lemma {:induction false} WholeBatch(whole: seq<LogEntry>, hint: int, batch: seq<LogEntry>)
    requires PartBatch(whole, hint, batch) && |batch| >= |whole|
    ensures IsBatch(whole, hint, batch)
  {
    if batch == [] {
    } else {
      BytesMonotone(batch, |batch| - 1);
    }
  }

  /** No shorter prefix reaches the hint. */
  lemma {:induction false} BatchIsShortest(whole: seq<LogEntry>, hint: int, batch: seq<LogEntry>, n: nat)
    requires IsBatch(whole, hint, batch) && hint > 0 && n < |batch|
    ensures Bytes(whole[..n]) < hint
  {
    BytesMonotone(batch[..|batch| - 1], n);
    assert batch[..|batch| - 1][..n] == whole[..n];
  }

  lemma BytesPush(entries: seq<LogEntry>, e: LogEntry)
    ensures (entries + [e])[..|entries|] == entries
    ensures Bytes(entries + [e]) == Bytes(entries) + |e.payload|
  {
    assert (entries + [e])[..|entries|] == entries;
  }

  lemma {:induction false} BytesMonotone(entries: seq<LogEntry>, n: nat)
    requires n <= |entries|
    ensures Bytes(entries[..n]) <= Bytes(entries)
    decreases |entries|
  {
    if n == |entries| {
      assert entries[..n] == entries;
    } else {
      var front := entries[..|entries| - 1];
      BytesMonotone(front, n);
      assert front[..n] == entries[..n];
    }
  }

  /** With a hint that is not negative a non-empty range yields a non-empty batch. */
  lemma BatchProgress(whole: seq<LogEntry>, hint: int, batch: seq<LogEntry>)
    requires IsBatch(whole, hint, batch) && hint >= 0 && whole != []
    ensures batch != []
  {
  }

  method Smallest(keys: set<nat>) returns (least: nat)
    requires keys != {}
    ensures least in keys && forall k :: k in keys ==> least <= k
  {
    least :| least in keys;
    var rest := keys - {least};
    while rest != {}
      invariant rest <= keys && least in keys
      invariant forall k :: k in keys && k !in rest ==> least <= k
    {
      var k :| k in rest;
      if k < least { least := k; }
      rest := rest - {k};
    }
  }

  class InMemLogStore {
    var slots: Slots
    var start: nat
    ghost var log: Log        // the entries from `start` on

    ghost predicate Valid()
      reads this
    {
      StoreOk(slots, start) && log == Contents(slots, start)
    }

    constructor (dummy: LogEntry)
      requires dummy.term == 0
      ensures Valid() && start == 1 && log == []
    {
      slots := map[0 := dummy];
      start := 1;
      log := [];
      new;
      DenseSize(slots, 1, 0);
    }

    method Next() returns (next: nat)
      requires Valid()
      ensures next == start + |log|
    {
      next := start + |slots| - 1;
    }

    /** Lookups outside the log fall back to the dummy entry. */
    method EntryAt(index: nat) returns (e: LogEntry)
      requires Valid()
      ensures start <= index < start + |log| ==> e == log[index - start]
      ensures !(start <= index < start + |log|) ==> 0 in slots && e == slots[0] && e.term == 0
      ensures 0 in slots && e == Lookup(slots, index)
    {
      e := if index in slots then slots[index] else slots[0];
    }

    method TermAt(index: nat) returns (term: nat)
      requires Valid()
      ensures term == if start <= index < start + |log| then log[index - start].term else 0
    {
      term := (if index in slots then slots[index] else slots[0]).term;
    }

    /** The dummy entry if the log is empty, compacted away or not. */
    method LastEntry() returns (e: LogEntry)
      requires Valid()
      ensures e.term == LastTerm(log)
      ensures if log == [] then 0 in slots && e == slots[0] else e == log[|log| - 1]
    {
      var next := Next();
      e := if next - 1 in slots then slots[next - 1] else slots[0];
    }

    method Append(e: LogEntry) returns (index: nat)
      requires Valid()
      modifies this
      ensures Valid() && start == old(start)
      ensures index == start + |old(log)| && log == old(log) + [e]
    {
      index := start + |slots| - 1;
      slots := slots[index := e];
      log := log + [e];
    }

    /** Discards every entry from `index` on, then writes. */
    method WriteAt(index: nat, e: LogEntry)
      requires Valid()
      modifies this
      ensures start == old(start)
      ensures Valid() <==> start <= index <= start + |old(log)| || (index == 0 && e.term == 0)
      ensures start <= index <= start + |old(log)| ==> log == old(log)[..index - start] + [e]
    {
      var doomed := set k | k in slots && k >= index;
      while doomed != {}
        invariant start == old(start)
        invariant doomed == set k | k in slots && k >= index
        invariant Below(slots, index) == Below(old(slots), index)
      {
        var k :| k in doomed;
        slots := slots - {k};
        doomed := doomed - {k};
      }
      assert slots == Below(slots, index) by {
        assert forall k :: k in slots ==> k !in doomed;
      }
      slots := slots[index := e];
      WriteKeepsIff(old(slots), start, index, e);
      if start <= index <= NextSlot(old(slots), start) {
        WrittenContents(old(slots), start, index, e);
      }
      log := if StoreOk(slots, start) then Contents(slots, start) else [];
    }

    /** Forgets everything up to `last`; the start index moves even if nothing was stored there. */
    method Compact(last: nat)
      requires Valid()
      modifies this
      ensures Valid() && start == if old(start) <= last then last + 1 else old(start)
      ensures log == if start < old(start) + |old(log)| then old(log)[start - old(start)..] else []
    {
      hide StoreOk, Contents, Outside;
      ghost var first := if start <= last then last + 1 else start;
      CompactedContents(slots, start, first);
      EraseUpTo(last);
      if start <= last { start := last + 1; }
      log := Contents(slots, start);
    }

    method EraseUpTo(last: nat)
      modifies this`slots
      ensures slots == Outside(old(slots), start, if start <= last then last + 1 else start)
    {
      var index := start;
      while index <= last
        invariant start <= index && (index <= last + 1 || index == start)
        invariant slots == Outside(old(slots), start, index)
      {
        slots := slots - {index};
        index := index + 1;
      }
    }

    method ApplyPack(index: nat, pack: seq<LogEntry>)
      requires Valid()
      modifies this
      ensures Valid() <==> PackFits(old(slots), old(start), index, pack)
      ensures Valid() ==> log == PackedContents(old(log), old(start), PackBase(index), PackBody(index, pack))
      ensures start == PackedFirst(|old(log)|, old(start), PackBase(index), |PackBody(index, pack)|)
    {
      hide StoreOk, Contents, Overlaid, PackedContents, IsFirst;
      PutAll(index, pack);
      ResetStart();
      PackedStartAny(old(slots), old(start), index, pack, start);
      PackKeepsIff(old(slots), old(start), index, pack, start);
      if PackFits(old(slots), old(start), index, pack) {
        PackedContentsAny(old(slots), old(start), index, pack, start);
      }
      log := if StoreOk(slots, start) then Contents(slots, start) else [];
    }

    method PutAll(index: nat, pack: seq<LogEntry>)
      modifies this`slots
      ensures slots == Overlaid(old(slots), index, pack)
    {
      for i := 0 to |pack|
        invariant slots == Overlaid(old(slots), index, pack[..i])
      {
        assert pack[..i + 1][..i] == pack[..i];
        slots := slots[index + i := pack[i]];
      }
      assert pack[..|pack|] == pack;
    }

    method ResetStart()
      modifies this`start
      ensures IsFirst(slots, start)
    {
      var above := set k | k in slots && k > 0;
      assert forall k :: k in slots && k > 0 <==> k in above;
      if above == {} {
        start := 1;
      } else {
        var first := Smallest(above);
        start := first;
      }
    }

    lemma RangeOk(from: nat, to: nat)
      requires Valid()
      ensures 0 in slots
      ensures start <= from <= to <= start + |log| ==> Range(slots, from, to) == log[from - start..to - start]
    {
      if start <= from <= to <= start + |log| { RangeInside(slots, start, from, to); }
    }

    /** Entries `from` up to but not including `to`, cut by the size hint. */
    method LogEntriesExt(from: nat, to: nat, hint: int) returns (batch: seq<LogEntry>)
      requires Valid()
      ensures 0 in slots && IsBatch(Range(slots, from, to), hint, batch)
      ensures start <= from <= to <= start + |log| ==> Range(slots, from, to) == log[from - start..to - start]
    {
      hide StoreOk, Contents, Bytes, PartBatch, IsBatch, Range, Valid;
      batch := [];
      RangeOk(from, to);
      if hint < 0 {
        NoBatch(Range(slots, from, to), hint);
        return;
      }
      EmptyBatch(Range(slots, from, to), hint);
      var size := 0;
      var index := from;
      while index < to
        invariant from <= index && (index <= to || index == from)
        invariant |batch| == index - from && size == Bytes(batch)
        invariant PartBatch(Range(slots, from, to), hint, batch)
      {
        var e := EntryAt(index);
        GrowBatch(Range(slots, from, to), hint, batch, e);
        batch := batch + [e];
        size := size + |e.payload|;
        index := index + 1;
        if hint != 0 && size >= hint { return; }
      }
      WholeBatch(Range(slots, from, to), hint, batch);
    }
  }
}
