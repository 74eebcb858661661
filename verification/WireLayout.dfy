/**
 Where everything is in the byte formats, by offset: what a reader that knows the offsets, and
 not the writers, finds in a message, a log entry, a server, a config, a snapshot and a sync request.
 */
module WireLayout {
  import opened LogEntries
  import opened Codec
  import opened Crc32
  import opened Rpc

  /** The little-endian number of n bytes at offset i. */
  function Number(bs: seq<byte>, i: nat, n: nat): nat
    requires i + n <= |bs|
  {
    GetLE(bs[i..i + n])
  }

  /** A field is found right after what precedes it. */
  lemma FieldAt(bs: seq<byte>, before: seq<byte>, field: seq<byte>, after: seq<byte>)
    requires bs == before + (field + after)
    ensures |before| + |field| <= |bs| && bs[|before|..|before| + |field|] == field
    ensures bs[|before| + |field|..] == after && bs == (before + field) + after
  {
  }

  lemma NumberAt(bs: seq<byte>, before: seq<byte>, n: nat, v: nat, after: seq<byte>)
    requires bs == before + (PutLE(n, v) + after) && v < Size(n)
    ensures |before| + n <= |bs| && Number(bs, |before|, n) == v && bs == (before + PutLE(n, v)) + after
  {
    hide PutLE, GetLE, Size;
    FieldAt(bs, before, PutLE(n, v), after);
    LERoundTrip(n, v);
  }

  lemma I32At(bs: seq<byte>, before: seq<byte>, v: int32, after: seq<byte>)
    requires bs == before + (PutI32(v) + after)
    ensures |before| + 4 <= |bs| && Number(bs, |before|, 4) == Wrap32(v) && bs == (before + PutI32(v)) + after
  {
    hide PutLE, GetLE, Size;
    Sizes();
    NumberAt(bs, before, 4, Wrap32(v), after);
  }

  lemma U64At(bs: seq<byte>, before: seq<byte>, v: uint64, after: seq<byte>)
    requires bs == before + (PutU64(v) + after)
    ensures |before| + 8 <= |bs| && Number(bs, |before|, 8) == v && bs == (before + PutU64(v)) + after
  {
    hide PutLE, GetLE, Size;
    Sizes();
    NumberAt(bs, before, 8, v, after);
  }

  lemma ByteAt(bs: seq<byte>, before: seq<byte>, b: byte, after: seq<byte>)
    requires bs == before + ([b] + after)
    ensures |before| < |bs| && bs[|before|] == b && bs == (before + [b]) + after
  {
  }

  // ----- requests

  /** The 46 bytes of header fields, whatever follows them. */
  lemma FieldsLayout(r: Request, size: nat, rest: seq<byte>)
    requires size < 0x8000_0000
    ensures var m := PutFields(r, size) + rest;
            && m[0] == 0 && m[1] == r.kind
            && Number(m, 2, 4) == Wrap32(r.src) && Number(m, 6, 4) == Wrap32(r.dst)
            && Number(m, 10, 8) == r.term && Number(m, 18, 8) == r.lastTerm
            && Number(m, 26, 8) == r.lastIdx && Number(m, 34, 8) == r.commit
            && Number(m, 42, 4) == size
  {
    hide PutI32, PutU64, Number;
    var m := PutFields(r, size) + rest;
    var b8 := PutI32(size) + rest;
    var b7 := PutU64(r.commit) + b8;
    var b6 := PutU64(r.lastIdx) + b7;
    var b5 := PutU64(r.lastTerm) + b6;
    var b4 := PutU64(r.term) + b5;
    var b3 := PutI32(r.dst) + b4;
    var b2 := PutI32(r.src) + b3;
    var f0: seq<byte> := [0, r.kind];
    assert m == f0 + b2;
    I32At(m, f0, r.src, b3);
    var f1 := f0 + PutI32(r.src);
    I32At(m, f1, r.dst, b4);
    var f2 := f1 + PutI32(r.dst);
    U64At(m, f2, r.term, b5);
    var f3 := f2 + PutU64(r.term);
    U64At(m, f3, r.lastTerm, b6);
    var f4 := f3 + PutU64(r.lastTerm);
    U64At(m, f4, r.lastIdx, b7);
    var f5 := f4 + PutU64(r.lastIdx);
    U64At(m, f5, r.commit, b8);
    var f6 := f5 + PutU64(r.commit);
    I32At(m, f6, size, rest);
  }

  /** The flags as the receiving side tests them. */
  function FlagBits(o: Options, meta: seq<byte>): nat {
    (if meta != [] then 1 else 0) + (if o.timestamps then 4 else 0)
    + (if o.entireCrc then 8 else 0) + (if o.payloadCrc then 16 else 0)
  }

  /** A whole message: the CRC at 46 is that of the first 46 bytes, or of these and the data from 54 on. */
  lemma MessageLayout(o: Options, r: Request, meta: seq<byte>)
    requires |Payload(o, r, meta)| < 0x8000_0000
    ensures var (m, payload) := (Encode(o, r, meta), Payload(o, r, meta));
            && |m| == 54 + |payload| && m[54..] == payload
            && m[0] == 0 && m[1] == r.kind
            && Number(m, 2, 4) == Wrap32(r.src) && Number(m, 6, 4) == Wrap32(r.dst)
            && Number(m, 10, 8) == r.term && Number(m, 18, 8) == r.lastTerm
            && Number(m, 26, 8) == r.lastIdx && Number(m, 34, 8) == r.commit
            && Number(m, 42, 4) == |payload|
            && Word(m[46..50]) == Crc(if o.entireCrc then m[..46] + m[54..] else m[..46], 0)
            && Number(m, 50, 4) == FlagBits(o, meta)
  {
    hide PutFields, PutCrc, PutLE, Payload, Crc, Word, Number, Size;
    var (m, payload) := (Encode(o, r, meta), Payload(o, r, meta));
    var fields := PutFields(r, |payload|);
    var crc := MessageCrc(o.entireCrc, fields, payload);
    var b2 := PutLE(4, Flags(o, meta)) + payload;
    var b1 := PutCrc(crc) + b2;
    assert m == fields + b1;
    FieldsLayout(r, |payload|, b1);
    FieldAt(m, fields, PutCrc(crc), b2);
    FlagsBack(o, meta);
    Sizes();
    NumberAt(m, fields + PutCrc(crc), 4, Flags(o, meta), payload);
    CrcBack(crc);
    CrcChains(fields, payload, 0);
    assert m[..46] == fields && m[54..] == payload;
  }

  /** A log entry: the time stamp and the CRC are there only if their option is on. */
  lemma EntryLayout(o: Options, e: LogEntry, rest: seq<byte>)
    requires EntryFits(e) && |e.payload| < 0x8000_0000
    ensures var m := PutEntry(o, e) + rest;
            var c := if o.timestamps then 17 else 9;
            var p := if o.payloadCrc then c + 5 else c;
            && |m| == p + 4 + |e.payload| + |rest|
            && Number(m, 0, 8) == e.term && m[8] == e.valType
            && (o.timestamps ==> Number(m, 9, 8) == e.timestamp)
            && (o.payloadCrc ==> m[c] == (if e.hasCrc then 1 else 0) && Word(m[c + 1..c + 5]) == e.crc)
            && Number(m, p, 4) == |e.payload| && m[p + 4..p + 4 + |e.payload|] == e.payload
  {
    hide PutLE, Word, Number, Size, PutEntry, PutStamp, PutEntryCrc;
    var m := PutEntry(o, e) + rest;
    var b4 := PutLE(4, |e.payload|) + (e.payload + rest);
    var b3 := PutEntryCrc(o, e) + b4;
    var b2 := PutStamp(o, e) + b3;
    EntryParts(o, e, rest);
    Sizes();
    NumberAt(m, [], 8, e.term, [e.valType] + b2);
    var f1 := [] + PutLE(8, e.term);
    ByteAt(m, f1, e.valType, b2);
    var f2 := f1 + [e.valType];
    FieldAt(m, f2, PutStamp(o, e), b3);
    StampAt(o, e, m, f2, b3);
    var f3 := f2 + PutStamp(o, e);
    FieldAt(m, f3, PutEntryCrc(o, e), b4);
    EntryCrcAt(o, e, m, f3, b4);
    var f4 := f3 + PutEntryCrc(o, e);
    assert |f2| == 9 && |f3| == (if o.timestamps then 17 else 9);
    SizedAt(m, f4, e.payload, rest);
  }

  /** A 32-bit length and that many bytes. */
  lemma SizedAt(m: seq<byte>, before: seq<byte>, s: seq<byte>, after: seq<byte>)
    requires |s| < 0x8000_0000 && m == before + (PutLE(4, |s|) + (s + after))
    ensures |m| == |before| + 4 + |s| + |after| && Number(m, |before|, 4) == |s|
    ensures m[|before| + 4..|before| + 4 + |s|] == s && m == (before + PutLE(4, |s|) + s) + after
  {
    hide PutLE, Number, Size;
    Sizes();
    NumberAt(m, before, 4, |s|, s + after);
    FieldAt(m, before + PutLE(4, |s|), s, after);
  }

  lemma EntryParts(o: Options, e: LogEntry, rest: seq<byte>)
    ensures PutEntry(o, e) + rest == [] + (PutLE(8, e.term) + ([e.valType] + (PutStamp(o, e) + (PutEntryCrc(o, e)
            + (PutLE(4, |e.payload|) + (e.payload + rest))))))
  {
    hide PutLE, PutStamp, PutEntryCrc;
  }

  lemma StampAt(o: Options, e: LogEntry, m: seq<byte>, before: seq<byte>, after: seq<byte>)
    requires EntryFits(e) && m == before + (PutStamp(o, e) + after)
    ensures o.timestamps ==> |before| + 8 <= |m| && Number(m, |before|, 8) == e.timestamp
  {
    hide PutLE, Number, Size;
    Sizes();
    if o.timestamps { NumberAt(m, before, 8, e.timestamp, after); }
  }

  lemma EntryCrcAt(o: Options, e: LogEntry, m: seq<byte>, before: seq<byte>, after: seq<byte>)
    requires m == before + (PutEntryCrc(o, e) + after)
    ensures o.payloadCrc ==>
              && |before| + 5 <= |m| && m[|before|] == (if e.hasCrc then 1 else 0)
              && Word(m[|before| + 1..|before| + 5]) == e.crc
  {
    hide PutCrc, Word;
    if o.payloadCrc {
      var b1 := PutCrc(e.crc) + after;
      assert m == before + ([PutBool(e.hasCrc)] + b1);
      ByteAt(m, before, PutBool(e.hasCrc), b1);
      FieldAt(m, before + [PutBool(e.hasCrc)], PutCrc(e.crc), after);
      CrcBack(e.crc);
    }
  }

  // ----- configs and snapshots

  lemma ServerLayout(s: SrvConfig, rest: seq<byte>)
    ensures var m := PutServer(s) + rest;
            var a := 8 + |s.endpoint| + 1;
            var l := a + |s.aux| + 1;
            && |m| == l + 5 + |rest|
            && Number(m, 0, 4) == Wrap32(s.id) && Number(m, 4, 4) == Wrap32(s.dcId)
            && m[8..8 + |s.endpoint|] == s.endpoint && m[a - 1] == 0
            && m[a..a + |s.aux|] == s.aux && m[l - 1] == 0
            && m[l] == (if s.learner then 1 else 0) && Number(m, l + 1, 4) == Wrap32(s.priority)
  {
    hide PutI32, Number, PutCstr, PutServer;
    CstrSize(s.endpoint);
    CstrSize(s.aux);
    ServerParts(s, rest);
    var m := PutServer(s) + rest;
    var b5 := PutI32(s.priority) + rest;
    var b4 := [PutBool(s.learner)] + b5;
    var b3 := PutCstr(s.aux) + b4;
    var b2 := PutCstr(s.endpoint) + b3;
    var b1 := PutI32(s.dcId) + b2;
    I32At(m, [], s.id, b1);
    var f1 := [] + PutI32(s.id);
    I32At(m, f1, s.dcId, b2);
    var f2 := f1 + PutI32(s.dcId);
    CstrAt(m, f2, s.endpoint, b3);
    var f3 := f2 + PutCstr(s.endpoint);
    CstrAt(m, f3, s.aux, b4);
    var f4 := f3 + PutCstr(s.aux);
    ByteAt(m, f4, PutBool(s.learner), b5);
    I32At(m, f4 + [PutBool(s.learner)], s.priority, rest);
  }

  lemma ServerParts(s: SrvConfig, rest: seq<byte>)
    ensures PutServer(s) + rest == [] + (PutI32(s.id) + (PutI32(s.dcId) + (PutCstr(s.endpoint) + (PutCstr(s.aux)
            + ([PutBool(s.learner)] + (PutI32(s.priority) + rest))))))
  {
    hide PutI32, PutCstr;
  }

  lemma CstrSize(s: seq<byte>)
    ensures |PutCstr(s)| == |s| + 1
  {
  }

  lemma CstrAt(bs: seq<byte>, before: seq<byte>, s: seq<byte>, after: seq<byte>)
    requires bs == before + (PutCstr(s) + after)
    ensures |before| + |s| + 1 <= |bs| && bs[|before|..|before| + |s|] == s && bs[|before| + |s|] == 0
    ensures bs == (before + PutCstr(s)) + after
  {
  }

  lemma ConfigLayout(c: ClusterConfig, rest: seq<byte>)
    requires ConfigFits(c)
    ensures var m := PutConfig(c) + rest;
            var n := 21 + |c.userCtx|;
            && n + 4 <= |m| && Number(m, 0, 8) == c.logIdx && Number(m, 8, 8) == c.prevLogIdx
            && m[16] == (if c.async then 1 else 0)
            && Number(m, 17, 4) == |c.userCtx| && m[21..n] == c.userCtx
            && Number(m, n, 4) == |c.servers| && m[n + 4..] == PutServers(c.servers) + rest
  {
    hide PutU64, PutLE, Number, PutServers, Size;
    ServersTakeSpace(c.servers);
    var m := PutConfig(c) + rest;
    var count := |c.servers|;
    var b5 := PutServers(c.servers) + rest;
    var b4 := PutLE(4, count) + b5;
    var b3 := PutLE(4, |c.userCtx|) + (c.userCtx + b4);
    var b2 := [PutBool(c.async)] + b3;
    var b1 := PutU64(c.prevLogIdx) + b2;
    assert m == [] + (PutU64(c.logIdx) + b1);
    U64At(m, [], c.logIdx, b1);
    var f1 := [] + PutU64(c.logIdx);
    U64At(m, f1, c.prevLogIdx, b2);
    var f2 := f1 + PutU64(c.prevLogIdx);
    ByteAt(m, f2, PutBool(c.async), b3);
    var f3 := f2 + [PutBool(c.async)];
    Sizes();
    SizedAt(m, f3, c.userCtx, b4);
    var f5 := f3 + PutLE(4, |c.userCtx|) + c.userCtx;
    NumberAt(m, f5, 4, count, b5);
    FieldAt(m, f5, PutLE(4, count), b5);
  }

  lemma SnapshotLayout(s: Snapshot, rest: seq<byte>)
    ensures var m := PutSnapshot(s) + rest;
            && |m| >= 25 && m[0] == s.kind
            && Number(m, 1, 8) == s.lastLogIdx && Number(m, 9, 8) == s.lastLogTerm && Number(m, 17, 8) == s.size
            && m[25..] == PutConfig(s.conf) + rest
  {
    hide PutU64, Number, PutConfig;
    var m := PutSnapshot(s) + rest;
    var b4 := PutConfig(s.conf) + rest;
    var b3 := PutU64(s.size) + b4;
    var b2 := PutU64(s.lastLogTerm) + b3;
    assert m == [s.kind] + (PutU64(s.lastLogIdx) + b2);
    U64At(m, [s.kind], s.lastLogIdx, b2);
    var f1 := [s.kind] + PutU64(s.lastLogIdx);
    U64At(m, f1, s.lastLogTerm, b3);
    var f2 := f1 + PutU64(s.lastLogTerm);
    U64At(m, f2, s.size, b4);
    FieldAt(m, f2, PutU64(s.size), b4);
  }

  /** The sync request's own fields come right after the snapshot, and the data is all the rest. */
  lemma SyncReqLayout(r: SnapshotSyncReq)
    ensures var m := PutSyncReq(r);
            var n := |PutSnapshot(r.snapshot)|;
            && n + 9 <= |m| && m[..n] == PutSnapshot(r.snapshot) && Number(m, n, 8) == r.offset
            && m[n + 8] == (if r.done then 1 else 0) && m[n + 9..] == r.data
  {
    hide PutU64, Number, PutSnapshot;
    var m := PutSyncReq(r);
    var f0 := PutSnapshot(r.snapshot);
    var b1 := [PutBool(r.done)] + r.data;
    assert m == f0 + (PutU64(r.offset) + b1);
    U64At(m, f0, r.offset, b1);
    var f1 := f0 + PutU64(r.offset);
    ByteAt(m, f1, PutBool(r.done), r.data);
    FieldAt(m, f1, [PutBool(r.done)], r.data);
  }
}
