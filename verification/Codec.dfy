/**
 The byte formats of server lists, cluster configs, snapshots and snapshot sync requests.
 Writers put little-endian fields one after another; readers parse them back.
 */
module Codec {
  import opened LogEntries

  type int32 = x: int | -0x8000_0000 <= x < 0x8000_0000
  type uint64 = x: int | 0 <= x < 0x1_0000_0000_0000_0000

  // ----- little-endian numbers

  // A byte and its number, bit by bit, so that proofs keep words and numbers apart.

  predicate Odd(x: nat) { x % 2 == 1 }

  function Half(x: nat): nat { x / 2 }

  function Mask8(on: bool, mask: byte): byte { if on then mask else 0 }

  function One(on: bool): nat { if on then 1 else 0 }

  function FromBits(b0: bool, b1: bool, b2: bool, b3: bool, b4: bool, b5: bool, b6: bool, b7: bool): byte {
    Mask8(b0, 1) | Mask8(b1, 2) | Mask8(b2, 4) | Mask8(b3, 8)
    | Mask8(b4, 16) | Mask8(b5, 32) | Mask8(b6, 64) | Mask8(b7, 128)
  }

  function ToByte(x: nat): byte
    requires x < 256
  {
    var x2 := Half(Half(x));
    var x4 := Half(Half(x2));
    var x6 := Half(Half(x4));
    FromBits(Odd(x), Odd(Half(x)), Odd(x2), Odd(Half(x2)), Odd(x4), Odd(Half(x4)), Odd(x6), Odd(Half(x6)))
  }

  predicate TestBit(b: byte, mask: byte) { b & mask != 0 }

  function ToNumber(b0: bool, b1: bool, b2: bool, b3: bool, b4: bool, b5: bool, b6: bool, b7: bool): nat {
    One(b0) + 2 * (One(b1) + 2 * (One(b2) + 2 * (One(b3)
    + 2 * (One(b4) + 2 * (One(b5) + 2 * (One(b6) + 2 * One(b7)))))))
  }

  function FromByte(b: byte): nat {
    ToNumber(TestBit(b, 1), TestBit(b, 2), TestBit(b, 4), TestBit(b, 8),
             TestBit(b, 16), TestBit(b, 32), TestBit(b, 64), TestBit(b, 128))
  }

  lemma BitsBack(b0: bool, b1: bool, b2: bool, b3: bool, b4: bool, b5: bool, b6: bool, b7: bool)
    ensures var b := FromBits(b0, b1, b2, b3, b4, b5, b6, b7);
            && TestBit(b, 1) == b0 && TestBit(b, 2) == b1 && TestBit(b, 4) == b2 && TestBit(b, 8) == b3
            && TestBit(b, 16) == b4 && TestBit(b, 32) == b5 && TestBit(b, 64) == b6 && TestBit(b, 128) == b7
  {
  }

  lemma Halving(x: nat)
    ensures x == One(Odd(x)) + 2 * Half(x)
  {
  }

  /** A number below 256 from its bits, lowest first. */
  lemma EightHalvings(x: nat)
    requires x < 256
    ensures var x2 := Half(Half(x)); var x4 := Half(Half(x2)); var x6 := Half(Half(x4));
            x == ToNumber(Odd(x), Odd(Half(x)), Odd(x2), Odd(Half(x2)), Odd(x4), Odd(Half(x4)), Odd(x6), Odd(Half(x6)))
  {
    hide Odd, Half, One;
    var x1 := Half(x);  Halving(x);
    var x2 := Half(x1); Halving(x1);
    var x3 := Half(x2); Halving(x2);
    var x4 := Half(x3); Halving(x3);
    var x5 := Half(x4); Halving(x4);
    var x6 := Half(x5); Halving(x5);
    var x7 := Half(x6); Halving(x6);
    Halving(x7);
    assert x7 < 2 && Half(x7) == 0;
  }

  lemma ByteRoundTrip(x: nat)
    requires x < 256
    ensures FromByte(ToByte(x)) == x
  {
    hide FromBits, TestBit, Odd, Half, ToNumber;
    EightHalvings(x);
    var x2 := Half(Half(x));
    var x4 := Half(Half(x2));
    var x6 := Half(Half(x4));
    BitsBack(Odd(x), Odd(Half(x)), Odd(x2), Odd(Half(x2)), Odd(x4), Odd(Half(x4)), Odd(x6), Odd(Half(x6)));
  }

  /** 256 to the n-th power. */
  function Size(n: nat): nat {
    if n == 0 then 1 else 256 * Size(n - 1)
  }

  function PutLE(n: nat, v: nat): (bs: seq<byte>)
    ensures |bs| == n
  {
    if n == 0 then [] else [ToByte(v % 256)] + PutLE(n - 1, v / 256)
  }

  lemma PutLEStep(n: nat, v: nat)
    requires n > 0
    ensures PutLE(n, v) == [ToByte(v % 256)] + PutLE(n - 1, v / 256)
  {
  }

  function GetLE(bs: seq<byte>): nat {
    if bs == [] then 0 else FromByte(bs[0]) + 256 * GetLE(bs[1..])
  }

  lemma {:induction false} LERoundTrip(n: nat, v: nat)
    requires v < Size(n)
    ensures GetLE(PutLE(n, v)) == v
  {
    hide ToByte, FromByte;
    if n == 0 {
    } else {
      ByteRoundTrip(v % 256);
      LERoundTrip(n - 1, v / 256);
    }
  }

  lemma BitsForth(b: byte)
    ensures FromBits(TestBit(b, 1), TestBit(b, 2), TestBit(b, 4), TestBit(b, 8),
                     TestBit(b, 16), TestBit(b, 32), TestBit(b, 64), TestBit(b, 128)) == b
  {
  }

  lemma Doubled(on: bool, x: nat)
    ensures Odd(One(on) + 2 * x) == on && Half(One(on) + 2 * x) == x
  {
  }

  /** The bits of a number below 256, read back from it. */
  lemma NumberBits(b0: bool, b1: bool, b2: bool, b3: bool, b4: bool, b5: bool, b6: bool, b7: bool)
    ensures var x := ToNumber(b0, b1, b2, b3, b4, b5, b6, b7);
            var x2 := Half(Half(x)); var x4 := Half(Half(x2)); var x6 := Half(Half(x4));
            && x < 256 && Odd(x) == b0 && Odd(Half(x)) == b1 && Odd(x2) == b2 && Odd(Half(x2)) == b3
            && Odd(x4) == b4 && Odd(Half(x4)) == b5 && Odd(x6) == b6 && Odd(Half(x6)) == b7
  {
    var y7 := One(b7) + 2 * 0;
    var y6 := One(b6) + 2 * y7;
    var y5 := One(b5) + 2 * y6;
    var y4 := One(b4) + 2 * y5;
    var y3 := One(b3) + 2 * y4;
    var y2 := One(b2) + 2 * y3;
    var y1 := One(b1) + 2 * y2;
    assert ToNumber(b0, b1, b2, b3, b4, b5, b6, b7) == One(b0) + 2 * y1;
    assert y1 < 128;
    hide Odd, Half, One, ToNumber;
    Doubled(b7, 0);
    Doubled(b6, y7);
    Doubled(b5, y6);
    Doubled(b4, y5);
    Doubled(b3, y4);
    Doubled(b2, y3);
    Doubled(b1, y2);
    Doubled(b0, y1);
  }

  lemma ByteForth(b: byte)
    ensures FromByte(b) < 256 && ToByte(FromByte(b)) == b
  {
    hide FromBits, TestBit, Odd, Half, ToNumber;
    NumberBits(TestBit(b, 1), TestBit(b, 2), TestBit(b, 4), TestBit(b, 8),
               TestBit(b, 16), TestBit(b, 32), TestBit(b, 64), TestBit(b, 128));
    BitsForth(b);
  }

  lemma {:induction false} LEForth(bs: seq<byte>)
    ensures PutLE(|bs|, GetLE(bs)) == bs
    decreases |bs|
  {
    hide ToByte, FromByte;
    if bs == [] {
    } else {
      ByteForth(bs[0]);
      LEForth(bs[1..]);
      assert [bs[0]] + bs[1..] == bs;
    }
  }

  /** Two's complement. */
  function Wrap32(v: int32): (w: nat)
    ensures w < 0x1_0000_0000
  {
    if v < 0 then v + 0x1_0000_0000 else v
  }

  function Unwrap32(w: nat): int32
    requires w < 0x1_0000_0000
  {
    if w >= 0x8000_0000 then w - 0x1_0000_0000 else w
  }

  function PutI32(v: int32): (bs: seq<byte>)
    ensures |bs| == 4
  {
    PutLE(4, Wrap32(v))
  }

  function PutU64(v: uint64): (bs: seq<byte>)
    ensures |bs| == 8
  {
    PutLE(8, v)
  }

  lemma {:induction false} GetLEBound(bs: seq<byte>)
    ensures GetLE(bs) < Size(|bs|)
  {
    hide FromByte;
    if bs == [] {
    } else {
      FromByteBound(bs[0]);
      GetLEBound(bs[1..]);
    }
  }

  lemma FromByteBound(b: byte)
    ensures FromByte(b) < 256
  {
  }

  lemma Sizes()
    ensures Size(4) == 0x1_0000_0000 && Size(8) == 0x1_0000_0000_0000_0000
  {
    assert Size(2) == 0x1_0000;
    assert Size(4) == 0x1_0000_0000;
    assert Size(6) == 0x1_0000_0000_0000;
  }

  // ----- parsing

  datatype Parsed<T> = Fail | Ok(value: T, rest: seq<byte>)

  function Take(n: nat, bs: seq<byte>): (p: Parsed<seq<byte>>)
    ensures p.Ok? <==> n <= |bs|
    ensures p.Ok? ==> |p.value| == n && p.value + p.rest == bs
  {
    if n <= |bs| then Ok(bs[..n], bs[n..]) else Fail
  }

  function ParseU8(bs: seq<byte>): Parsed<byte> {
    if bs == [] then Fail else Ok(bs[0], bs[1..])
  }

  function ParseI32(bs: seq<byte>): Parsed<int32> {
    match Take(4, bs)
    case Fail => Fail
    case Ok(v, rest) => GetLEBound(v); Sizes(); Ok(Unwrap32(GetLE(v)), rest)
  }

  function ParseU32(bs: seq<byte>): Parsed<nat> {
    match Take(4, bs)
    case Fail => Fail
    case Ok(v, rest) => Ok(GetLE(v), rest)
  }

  function ParseU64(bs: seq<byte>): Parsed<uint64> {
    match Take(8, bs)
    case Fail => Fail
    case Ok(v, rest) => GetLEBound(v); Sizes(); Ok(GetLE(v), rest)
  }

  /** Bytes up to the first zero, which is consumed. */
  function ParseCstr(bs: seq<byte>): Parsed<seq<byte>> {
    if bs == [] then Fail
    else if bs[0] == 0 then Ok([], bs[1..])
    else
      match ParseCstr(bs[1..])
      case Fail => Fail
      case Ok(s, rest) => Ok([bs[0]] + s, rest)
  }

  /** A 32-bit length, then that many bytes. */
  function ParseSized(bs: seq<byte>): Parsed<seq<byte>> {
    match ParseU32(bs)
    case Fail => Fail
    case Ok(n, rest) => Take(n, rest)
  }

  predicate NoZero(s: seq<byte>) {
    forall i :: 0 <= i < |s| ==> s[i] != 0
  }

  function PutCstr(s: seq<byte>): seq<byte> { s + [0] }

  function PutSized(s: seq<byte>): seq<byte> { PutLE(4, |s|) + s }

  function PutBool(b: bool): byte { if b then 1 else 0 }

  // ----- fields come back

  lemma TakeBack(a: seq<byte>, rest: seq<byte>)
    ensures Take(|a|, a + rest) == Ok(a, rest)
  {
    assert (a + rest)[..|a|] == a && (a + rest)[|a|..] == rest;
  }

  lemma I32Back(v: int32, rest: seq<byte>)
    ensures ParseI32(PutI32(v) + rest) == Ok(v, rest)
  {
    hide PutLE, GetLE, Size, Take;
    TakeBack(PutI32(v), rest);
    Sizes();
    LERoundTrip(4, Wrap32(v));
  }

  lemma U32Back(v: nat, rest: seq<byte>)
    requires v < 0x1_0000_0000
    ensures ParseU32(PutLE(4, v) + rest) == Ok(v, rest)
  {
    hide PutLE, GetLE, Size, Take;
    TakeBack(PutLE(4, v), rest);
    Sizes();
    LERoundTrip(4, v);
  }

  lemma U64Back(v: uint64, rest: seq<byte>)
    ensures ParseU64(PutU64(v) + rest) == Ok(v, rest)
  {
    hide PutLE, GetLE, Size, Take;
    TakeBack(PutU64(v), rest);
    Sizes();
    LERoundTrip(8, v);
  }

  lemma U8Back(b: byte, rest: seq<byte>)
    ensures ParseU8([b] + rest) == Ok(b, rest)
  {
  }

  lemma {:induction false} CstrBack(s: seq<byte>, rest: seq<byte>)
    requires NoZero(s)
    ensures ParseCstr(PutCstr(s) + rest) == Ok(s, rest)
    decreases |s|
  {
    var bs := PutCstr(s) + rest;
    if s == [] {
      assert bs == [0] + rest;
    } else {
      assert bs[1..] == PutCstr(s[1..]) + rest;
      CstrBack(s[1..], rest);
      assert [s[0]] + s[1..] == s;
    }
  }

  lemma {:induction false} CstrHasNoZero(bs: seq<byte>)
    ensures ParseCstr(bs).Ok? ==> NoZero(ParseCstr(bs).value)
    decreases |bs|
  {
    if bs != [] && bs[0] != 0 { CstrHasNoZero(bs[1..]); }
  }

  lemma SizedBack(s: seq<byte>, rest: seq<byte>)
    requires |s| < 0x1_0000_0000
    ensures ParseSized(PutSized(s) + rest) == Ok(s, rest)
  {
    hide PutLE, GetLE, Take, ParseU32;
    assert PutSized(s) + rest == PutLE(4, |s|) + (s + rest);
    U32Back(|s|, s + rest);
    TakeBack(s, rest);
  }

  // ----- records

  datatype SrvConfig = SrvConfig(
    id: int32, dcId: int32, endpoint: seq<byte>, aux: seq<byte>, learner: bool, priority: int32)

  datatype ClusterConfig = ClusterConfig(
    logIdx: uint64, prevLogIdx: uint64, async: bool, userCtx: seq<byte>, servers: seq<SrvConfig>)

  datatype Snapshot = Snapshot(
    kind: byte, lastLogIdx: uint64, lastLogTerm: uint64, size: uint64, conf: ClusterConfig)

  /** `data` is what the payload buffer holds from its position on. */
  datatype SnapshotSyncReq = SnapshotSyncReq(snapshot: Snapshot, offset: uint64, done: bool, data: seq<byte>)

  function PutServer(s: SrvConfig): seq<byte> {
    PutI32(s.id) + PutI32(s.dcId) + PutCstr(s.endpoint) + PutCstr(s.aux) + [PutBool(s.learner)] + PutI32(s.priority)
  }

  function PutServers(servers: seq<SrvConfig>): seq<byte> {
    if servers == [] then [] else PutServer(servers[0]) + PutServers(servers[1..])
  }

  /** The server count is truncated to 32 bits; a buffer holds fewer servers than that. */
  function PutConfig(c: ClusterConfig): seq<byte> {
    PutU64(c.logIdx) + PutU64(c.prevLogIdx) + [PutBool(c.async)] + PutSized(c.userCtx)
    + PutLE(4, |c.servers| % 0x1_0000_0000) + PutServers(c.servers)
  }

  function PutSnapshot(s: Snapshot): seq<byte> {
    [s.kind] + PutU64(s.lastLogIdx) + PutU64(s.lastLogTerm) + PutU64(s.size) + PutConfig(s.conf)
  }

  function PutSyncReq(r: SnapshotSyncReq): seq<byte> {
    PutSnapshot(r.snapshot) + PutU64(r.offset) + [PutBool(r.done)] + r.data
  }

  // ----- sizes, as the writers compute them before they allocate

  function ServerSize(s: SrvConfig): nat {
    4 + 4 + (|s.endpoint| + 1) + (|s.aux| + 1) + 1 + 4
  }

  function ServersSize(servers: seq<SrvConfig>): nat {
    if servers == [] then 0 else ServerSize(servers[0]) + ServersSize(servers[1..])
  }

  function ConfigSize(c: ClusterConfig): nat {
    2 * 8 + 4 + 1 + ServersSize(c.servers) + 4 + |c.userCtx|
  }

  function SnapshotSize(s: Snapshot): nat { ConfigSize(s.conf) + 3 * 8 + 1 }

  function SyncReqSize(r: SnapshotSyncReq): nat { SnapshotSize(r.snapshot) + 8 + 1 + |r.data| }

  lemma {:induction false} ServersLength(servers: seq<SrvConfig>)
    ensures |PutServers(servers)| == ServersSize(servers)
    decreases |servers|
  {
    if servers == [] {
    } else {
      ServersLength(servers[1..]);
    }
  }

  /** The size computed for a request is the number of bytes written for it. */
  lemma SyncReqLength(r: SnapshotSyncReq)
    ensures |PutConfig(r.snapshot.conf)| == ConfigSize(r.snapshot.conf)
    ensures |PutSyncReq(r)| == SyncReqSize(r)
  {
    hide PutServers, PutLE;
    ServersLength(r.snapshot.conf.servers);
  }

  function ParseServer(bs: seq<byte>): Parsed<SrvConfig> {
    match ParseI32(bs) case Fail => Fail case Ok(id, b1) =>
    match ParseI32(b1) case Fail => Fail case Ok(dcId, b2) =>
    match ParseCstr(b2) case Fail => Fail case Ok(endpoint, b3) =>
    match ParseCstr(b3) case Fail => Fail case Ok(aux, b4) =>
    match ParseU8(b4) case Fail => Fail case Ok(learner, b5) =>
    match ParseI32(b5) case Fail => Fail case Ok(priority, rest) =>
      Ok(SrvConfig(id, dcId, endpoint, aux, learner != 0, priority), rest)
  }

  function ParseServers(count: int, bs: seq<byte>): Parsed<seq<SrvConfig>>
    decreases if count > 0 then count else 0
  {
    if count <= 0 then Ok([], bs)
    else
      match ParseServer(bs)
      case Fail => Fail
      case Ok(s, b1) =>
        match ParseServers(count - 1, b1)
        case Fail => Fail
        case Ok(servers, rest) => Ok([s] + servers, rest)
  }

  function ParseConfig(bs: seq<byte>): Parsed<ClusterConfig> {
    match ParseU64(bs) case Fail => Fail case Ok(logIdx, b1) =>
    match ParseU64(b1) case Fail => Fail case Ok(prevLogIdx, b2) =>
    match ParseU8(b2) case Fail => Fail case Ok(async, b3) =>
    match ParseSized(b3) case Fail => Fail case Ok(userCtx, b4) =>
    match ParseI32(b4) case Fail => Fail case Ok(count, b5) =>
    match ParseServers(count, b5) case Fail => Fail case Ok(servers, rest) =>
      Ok(ClusterConfig(logIdx, prevLogIdx, async != 0, userCtx, servers), rest)
  }

  function ParseSnapshot(bs: seq<byte>): Parsed<Snapshot> {
    match ParseU8(bs) case Fail => Fail case Ok(kind, b1) =>
    match ParseU64(b1) case Fail => Fail case Ok(lastLogIdx, b2) =>
    match ParseU64(b2) case Fail => Fail case Ok(lastLogTerm, b3) =>
    match ParseU64(b3) case Fail => Fail case Ok(size, b4) =>
    match ParseConfig(b4) case Fail => Fail case Ok(conf, rest) =>
      Ok(Snapshot(kind, lastLogIdx, lastLogTerm, size, conf), rest)
  }

  /** Everything after the fixed part is the payload. */
  function ParseSyncReq(bs: seq<byte>): (p: Parsed<SnapshotSyncReq>)
    ensures p.Ok? ==> p.rest == []
  {
    match ParseSnapshot(bs) case Fail => Fail case Ok(snapshot, b1) =>
    match ParseU64(b1) case Fail => Fail case Ok(offset, b2) =>
    match ParseU8(b2) case Fail => Fail case Ok(done, data) =>
      Ok(SnapshotSyncReq(snapshot, offset, done == 1, data), [])
  }

  // ----- records come back

  predicate CleanServer(s: SrvConfig) { NoZero(s.endpoint) && NoZero(s.aux) }

  predicate CleanServers(servers: seq<SrvConfig>) {
    forall i :: 0 <= i < |servers| ==> CleanServer(servers[i])
  }

  lemma ServerBack(s: SrvConfig, rest: seq<byte>)
    requires CleanServer(s)
    ensures ParseServer(PutServer(s) + rest) == Ok(s, rest)
  {
    hide PutI32, ParseI32, PutCstr, ParseCstr, ParseU8;
    var b5 := PutI32(s.priority) + rest;
    var b4 := [PutBool(s.learner)] + b5;
    var b3 := PutCstr(s.aux) + b4;
    var b2 := PutCstr(s.endpoint) + b3;
    var b1 := PutI32(s.dcId) + b2;
    assert PutServer(s) + rest == PutI32(s.id) + b1;
    I32Back(s.id, b1);
    I32Back(s.dcId, b2);
    CstrBack(s.endpoint, b3);
    CstrBack(s.aux, b4);
    U8Back(PutBool(s.learner), b5);
    I32Back(s.priority, rest);
  }

  lemma {:induction false} ServersBack(servers: seq<SrvConfig>, rest: seq<byte>)
    requires CleanServers(servers)
    ensures ParseServers(|servers|, PutServers(servers) + rest) == Ok(servers, rest)
    decreases |servers|
  {
    hide PutServer, ParseServer;
    if servers == [] {
      assert PutServers(servers) + rest == rest;
    } else {
      var b1 := PutServers(servers[1..]) + rest;
      assert PutServers(servers) + rest == PutServer(servers[0]) + b1;
      ServerBack(servers[0], b1);
      ServersBack(servers[1..], rest);
      assert [servers[0]] + servers[1..] == servers;
    }
  }

  /** Each server takes at least one byte. */
  lemma {:induction false} ServersTakeSpace(servers: seq<SrvConfig>)
    ensures |servers| <= ServersSize(servers)
    decreases |servers|
  {
    if servers == [] {
    } else {
      ServersTakeSpace(servers[1..]);
    }
  }

  /** A config that fits a buffer. */
  predicate ConfigFits(c: ClusterConfig) { ConfigSize(c) < 0x8000_0000 }

  lemma ConfigBack(c: ClusterConfig, rest: seq<byte>)
    requires CleanServers(c.servers) && ConfigFits(c)
    ensures ParseConfig(PutConfig(c) + rest) == Ok(c, rest)
  {
    hide PutU64, ParseU64, ParseU8, PutServers, ParseServers, ParseSized, PutLE, ParseI32;
    ServersTakeSpace(c.servers);
    var n := |c.servers|;
    assert PutLE(4, n % 0x1_0000_0000) == PutI32(n);
    var b5 := PutServers(c.servers) + rest;
    var b4 := PutI32(n) + b5;
    var b3 := PutSized(c.userCtx) + b4;
    var b2 := [PutBool(c.async)] + b3;
    var b1 := PutU64(c.prevLogIdx) + b2;
    assert PutConfig(c) + rest == PutU64(c.logIdx) + b1;
    U64Back(c.logIdx, b1);
    U64Back(c.prevLogIdx, b2);
    U8Back(PutBool(c.async), b3);
    SizedBack(c.userCtx, b4);
    I32Back(n, b5);
    ServersBack(c.servers, rest);
  }

  lemma SnapshotBack(s: Snapshot, rest: seq<byte>)
    requires CleanServers(s.conf.servers) && ConfigFits(s.conf)
    ensures ParseSnapshot(PutSnapshot(s) + rest) == Ok(s, rest)
  {
    hide PutU64, ParseU64, ParseU8, PutConfig, ParseConfig;
    var b4 := PutConfig(s.conf) + rest;
    var b3 := PutU64(s.size) + b4;
    var b2 := PutU64(s.lastLogTerm) + b3;
    var b1 := PutU64(s.lastLogIdx) + b2;
    assert PutSnapshot(s) + rest == [s.kind] + b1;
    U8Back(s.kind, b1);
    U64Back(s.lastLogIdx, b2);
    U64Back(s.lastLogTerm, b3);
    U64Back(s.size, b4);
    ConfigBack(s.conf, rest);
  }

  lemma SyncReqBack(r: SnapshotSyncReq)
    requires CleanServers(r.snapshot.conf.servers) && SyncReqSize(r) < 0x8000_0000
    ensures ParseSyncReq(PutSyncReq(r)) == Ok(r, [])
  {
    hide PutU64, ParseU64, ParseU8, PutConfig, ParseSnapshot;
    var b2 := [PutBool(r.done)] + r.data;
    var b1 := PutU64(r.offset) + b2;
    assert PutSyncReq(r) == PutSnapshot(r.snapshot) + b1;
    SnapshotBack(r.snapshot, b1);
    U64Back(r.offset, b2);
    U8Back(PutBool(r.done), r.data);
  }

  // ----- nothing with a zero byte comes back

  lemma ParsedServerClean(bs: seq<byte>)
    ensures ParseServer(bs).Ok? ==> CleanServer(ParseServer(bs).value)
  {
    hide ParseI32, ParseCstr, ParseU8, NoZero;
    if ParseServer(bs).Ok? {
      var b2 := ParseI32(ParseI32(bs).rest).rest;
      CstrHasNoZero(b2);
      CstrHasNoZero(ParseCstr(b2).rest);
    }
  }

  lemma {:induction false} ParsedServersClean(count: int, bs: seq<byte>)
    ensures ParseServers(count, bs).Ok? ==> CleanServers(ParseServers(count, bs).value)
    decreases if count > 0 then count else 0
  {
    hide ParseServer, CleanServer;
    if count > 0 && ParseServer(bs).Ok? {
      ParsedServerClean(bs);
      ParsedServersClean(count - 1, ParseServer(bs).rest);
    }
  }

  lemma ParsedConfigClean(bs: seq<byte>)
    ensures ParseConfig(bs).Ok? ==> CleanServers(ParseConfig(bs).value.servers)
  {
    hide ParseI32, ParseU64, ParseU8, ParseSized, ParseServers;
    if ParseConfig(bs).Ok? {
      var b4 := ParseSized(ParseU8(ParseU64(ParseU64(bs).rest).rest).rest).rest;
      ParsedServersClean(ParseI32(b4).value, ParseI32(b4).rest);
    }
  }

  lemma ParsedSnapshotClean(bs: seq<byte>)
    ensures ParseSnapshot(bs).Ok? ==> CleanServers(ParseSnapshot(bs).value.conf.servers)
  {
    hide ParseU64, ParseU8, ParseConfig, CleanServers;
    if ParseSnapshot(bs).Ok? {
      ParsedConfigClean(ParseU64(ParseU64(ParseU64(ParseU8(bs).rest).rest).rest).rest);
    }
  }

  // ----- what comes back, exactly

  /** A server comes back exactly when neither its endpoint nor its aux string has a zero byte. */
  lemma ServerRoundTripIff(s: SrvConfig, rest: seq<byte>)
    ensures ParseServer(PutServer(s) + rest) == Ok(s, rest) <==> CleanServer(s)
  {
    hide PutServer, ParseServer, CleanServer;
    if CleanServer(s) {
      ServerBack(s, rest);
    } else {
      ParsedServerClean(PutServer(s) + rest);
    }
  }

  lemma ConfigRoundTripIff(c: ClusterConfig, rest: seq<byte>)
    requires ConfigFits(c)
    ensures ParseConfig(PutConfig(c) + rest) == Ok(c, rest) <==> CleanServers(c.servers)
  {
    hide PutConfig, ParseConfig, CleanServers;
    if CleanServers(c.servers) {
      ConfigBack(c, rest);
    } else {
      ParsedConfigClean(PutConfig(c) + rest);
    }
  }

  lemma SnapshotRoundTripIff(s: Snapshot, rest: seq<byte>)
    requires ConfigFits(s.conf)
    ensures ParseSnapshot(PutSnapshot(s) + rest) == Ok(s, rest) <==> CleanServers(s.conf.servers)
  {
    hide PutSnapshot, ParseSnapshot, CleanServers;
    if CleanServers(s.conf.servers) {
      SnapshotBack(s, rest);
    } else {
      ParsedSnapshotClean(PutSnapshot(s) + rest);
    }
  }

  /** A request that fits a buffer comes back exactly when no endpoint and no aux string has a zero byte. */
  lemma SyncReqRoundTripIff(r: SnapshotSyncReq)
    requires SyncReqSize(r) < 0x8000_0000
    ensures ParseSyncReq(PutSyncReq(r)) == Ok(r, []) <==> CleanServers(r.snapshot.conf.servers)
  {
    hide PutSyncReq, ParseSnapshot, CleanServers;
    if CleanServers(r.snapshot.conf.servers) {
      SyncReqBack(r);
    } else {
      ParsedSnapshotClean(PutSyncReq(r));
    }
  }

  /** The endpoint "a\0b" is one that does not come back. */
  lemma ZeroInEndpoint(s: SrvConfig, rest: seq<byte>)
    requires s.endpoint == [97, 0, 98]
    ensures ParseServer(PutServer(s) + rest) != Ok(s, rest)
  {
    assert s.endpoint[1] == 0;
    ServerRoundTripIff(s, rest);
  }
}
