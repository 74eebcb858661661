/**
 Buffers with a cursor, the serializer that reads them, and the writers and readers of the
 record formats. Writers and readers use different classes.
 */
module Buffers {
  import opened Basics
  import opened LogEntries
  import opened Codec

  const MAX_SIZE: nat := 0x8000_0000

  /** A byte block of fixed size; every put checks the space left. */
  class Buffer {
    const data: array<byte>
    var pos: nat
    ghost var written: seq<byte>      // the bytes before the position

    ghost predicate Valid()
      reads this, data
    {
      pos == |written| <= data.Length && data[..pos] == written
    }

    constructor (size: nat)
      requires size < MAX_SIZE
      ensures Valid() && fresh(data) && data.Length == size && written == []
    {
      data := new byte[size];
      pos := 0;
      written := [];
    }

    method PutRaw(bytes: seq<byte>) returns (ok: bool)
      requires Valid()
      modifies this, data
      ensures Valid() && ok == (|old(written)| + |bytes| <= data.Length)
      ensures written == if ok then old(written) + bytes else old(written)
    {
      ok := |bytes| <= data.Length - pos;
      if !ok { return; }
      for i := 0 to |bytes|
        invariant Valid() && written == old(written) + bytes[..i]
      {
        data[pos] := bytes[i];
        assert data[..pos + 1] == data[..pos] + [bytes[i]];
        pos, written := pos + 1, written + [bytes[i]];
        assert bytes[..i + 1] == bytes[..i] + [bytes[i]];
      }
      assert bytes[..|bytes|] == bytes;
    }

    /** The low `n` bytes of `v`, lowest first. */
    method PutNumber(n: nat, v: nat) returns (ok: bool)
      requires Valid()
      modifies this, data
      ensures Valid() && ok == (|old(written)| + n <= data.Length)
      ensures written == if ok then old(written) + PutLE(n, v) else old(written)
    {
      hide ToByte, PutLE;
      ok := n <= data.Length - pos;
      if !ok { return; }
      var left := v;
      for i := 0 to n
        invariant Valid() && |written| == |old(written)| + i
        invariant written + PutLE(n - i, left) == old(written) + PutLE(n, v)
      {
        PutLEStep(n - i, left);
        assert written + PutLE(n - i, left) == written + [ToByte(left % 256)] + PutLE(n - i - 1, left / 256);
        var _ := PutByte(ToByte(left % 256));
        left := left / 256;
      }
    }

    method PutByte(b: byte) returns (ok: bool)
      requires Valid()
      modifies this, data
      ensures Valid() && ok == (|old(written)| + 1 <= data.Length)
      ensures written == if ok then old(written) + [b] else old(written)
    {
      ok := 1 <= data.Length - pos;
      if ok {
        data[pos] := b;
        assert data[..pos + 1] == data[..pos] + [b];
        pos, written := pos + 1, written + [b];
      }
    }

    /** The bytes and a terminating zero. */
    method PutString(s: seq<byte>) returns (ok: bool)
      requires Valid()
      modifies this, data
      ensures Valid() && ok == (|old(written)| + |s| + 1 <= data.Length)
      ensures written == if ok then old(written) + PutCstr(s) else old(written)
    {
      ok := |s| + 1 <= data.Length - pos;
      if ok {
        var _ := PutRaw(s);
        var _ := PutByte(0);
      }
    }

    /** A 32-bit length and the bytes; the length stays written if the bytes do not fit. */
    method PutBytes(s: seq<byte>) returns (ok: bool)
      requires Valid()
      modifies this, data
      ensures Valid() && ok == (|old(written)| + 4 + |s| <= data.Length)
      ensures written == if ok then old(written) + PutSized(s)
                         else if |old(written)| + 4 <= data.Length then old(written) + PutLE(4, |s|)
                         else old(written)
    {
      ok := PutNumber(4, |s|);
      if ok { ok := PutRaw(s); }
    }

    method Bytes(from: nat) returns (s: seq<byte>)
      requires Valid() && from <= |written|
      ensures s == written[from..]
    {
      s := data[from..pos];
    }

    /** Replaces bytes that are already written. */
    method Overwrite(at: nat, bytes: seq<byte>)
      requires Valid() && at + |bytes| <= |written|
      modifies this, data
      ensures Valid() && written == old(written)[..at] + bytes + old(written)[at + |bytes|..]
    {
      for i := 0 to |bytes|
        invariant Valid() && |written| == |old(written)|
        invariant forall k :: 0 <= k < |written| ==>
          written[k] == if at <= k < at + i then bytes[k - at] else old(written)[k]
      {
        data[at + i] := bytes[i];
        written := written[at + i := bytes[i]];
      }
    }

    /** Back to the start of a block that has been filled. */
    method Rewind()
      requires Valid()
      modifies this
      ensures Valid() && pos == 0
      ensures |old(written)| == data.Length ==> data[..] == old(written)
    {
      assert data[..data.Length] == data[..];
      pos, written := 0, [];
    }
  }

  /** Reads fields of a buffer from a position of its own. */
  class BufferSerializer {
    const buf: seq<byte>
    var pos: nat

    ghost predicate Valid()
      reads this
    {
      pos <= |buf|
    }

    ghost function Rest(): seq<byte>
      requires Valid()
      reads this
    {
      buf[pos..]
    }

    constructor (buf: seq<byte>)
      ensures this.buf == buf && Valid() && pos == 0 && Rest() == buf
    {
      this.buf := buf;
      pos := 0;
    }

    method GetRaw(n: nat) returns (r: Option<seq<byte>>)
      requires Valid()
      modifies this`pos
      ensures Valid() && Yields(Take(n, old(Rest())), r, Rest())
    {
      if pos + n > |buf| { return None; }
      assert buf[pos..pos + n] == Rest()[..n] && buf[pos + n..] == Rest()[n..];
      r := Some(buf[pos..pos + n]);
      pos := pos + n;
    }

    method GetU8() returns (r: Option<byte>)
      requires Valid()
      modifies this`pos
      ensures Valid() && Yields(ParseU8(old(Rest())), r, Rest())
    {
      if pos + 1 > |buf| { return None; }
      r := Some(buf[pos]);
      pos := pos + 1;
    }

    /** Shifts the bytes in, highest first. */
    method GetNumber(n: nat) returns (r: Option<nat>)
      requires Valid()
      modifies this`pos
      ensures Valid()
      ensures r.Some? <==> n <= |old(Rest())|
      ensures r.Some? ==> r.value == GetLE(old(Rest())[..n]) && Rest() == old(Rest())[n..]
    {
      if pos + n > |buf| { return None; }
      var v := 0;
      var i := n;
      ghost var field := buf[pos..pos + n];
      while i > 0
        invariant 0 <= i <= n && v == GetLE(field[i..])
      {
        i := i - 1;
        assert field[i..][1..] == field[i + 1..];
        v := v * 256 + FromByte(buf[pos + i]);
      }
      assert field == old(Rest())[..n] && field[0..] == field;
      pos := pos + n;
      r := Some(v);
    }

    method GetU32() returns (r: Option<nat>)
      requires Valid()
      modifies this`pos
      ensures Valid() && Yields(ParseU32(old(Rest())), r, Rest())
    {
      r := GetNumber(4);
    }

    method GetI32() returns (r: Option<int32>)
      requires Valid()
      modifies this`pos
      ensures Valid() && Yields(ParseI32(old(Rest())), r, Rest())
    {
      ghost var bs := Rest();
      var v := GetNumber(4);
      if v.None? { return None; }
      GetLEBound(bs[..4]);
      Sizes();
      r := Some(Unwrap32(v.value));
    }

    method GetU64() returns (r: Option<uint64>)
      requires Valid()
      modifies this`pos
      ensures Valid() && Yields(ParseU64(old(Rest())), r, Rest())
    {
      ghost var bs := Rest();
      var v := GetNumber(8);
      if v.None? { return None; }
      GetLEBound(bs[..8]);
      Sizes();
      r := Some(v.value);
    }

    method GetBytes() returns (r: Option<seq<byte>>)
      requires Valid()
      modifies this`pos
      ensures Valid() && Yields(ParseSized(old(Rest())), r, Rest())
    {
      var n := GetU32();
      if n.None? { return None; }
      r := GetRaw(n.value);
    }

    /** Looks for the terminating zero; running off the end counts as a failure. */
    method GetCstr() returns (r: Option<seq<byte>>)
      requires Valid()
      modifies this`pos
      ensures Valid() && Yields(ParseCstr(old(Rest())), r, Rest())
    {
      hide ParseCstr, Prepend;
      ghost var bs := Rest();
      var n: nat := 0;
      PrependNone(bs);
      while pos + n < |buf| && buf[pos + n] != 0
        invariant pos == old(pos) && pos + n <= |buf|
        invariant ParseCstr(bs) == Prepend(bs[..n], ParseCstr(bs[n..]))
      {
        PrependOne(bs, n);
        n := n + 1;
      }
      PrependEnd(bs, n);
      if pos + n == |buf| { return None; }
      assert bs[n + 1..] == buf[pos + n + 1..];
      r := Some(buf[pos..pos + n]);
      assert buf[pos..pos + n] == bs[..n];
      pos := pos + n + 1;
    }
  }

  /** A read that returns what the parser says and leaves the rest. */
  ghost predicate Yields<T>(p: Parsed<T>, r: Option<T>, rest: seq<byte>) {
    if p.Fail? then r.None? else r == Some(p.value) && rest == p.rest
  }

  function Prepend(s: seq<byte>, p: Parsed<seq<byte>>): Parsed<seq<byte>> {
    match p
    case Fail => Fail
    case Ok(t, rest) => Ok(s + t, rest)
  }

  lemma PrependNone(bs: seq<byte>)
    ensures ParseCstr(bs) == Prepend(bs[..0], ParseCstr(bs[0..]))
  {
    hide ParseCstr;
    assert bs[0..] == bs;
    assert ParseCstr(bs).Ok? ==> bs[..0] + ParseCstr(bs).value == ParseCstr(bs).value;
  }

  lemma PrependEnd(bs: seq<byte>, n: nat)
    requires n <= |bs| && (n < |bs| ==> bs[n] == 0)
    ensures Prepend(bs[..n], ParseCstr(bs[n..])) == if n == |bs| then Fail else Ok(bs[..n], bs[n + 1..])
  {
    assert bs[..n] + [] == bs[..n];
    assert n < |bs| ==> bs[n..][1..] == bs[n + 1..];
  }

  lemma PrependOne(bs: seq<byte>, n: nat)
    requires n < |bs| && bs[n] != 0
    ensures Prepend(bs[..n], ParseCstr(bs[n..])) == Prepend(bs[..n + 1], ParseCstr(bs[n + 1..]))
  {
    assert bs[n..][1..] == bs[n + 1..];
    var p := ParseCstr(bs[n + 1..]);
    assert p.Ok? ==> bs[..n] + ([bs[n]] + p.value) == bs[..n + 1] + p.value;
  }

  // ----- writers

  /** The block is filled exactly, and handed over rewound. */
  ghost predicate Holds(buf: Buffer?, bytes: seq<byte>)
    reads buf, if buf == null then {} else {buf.data}
  {
    if |bytes| >= MAX_SIZE then buf == null
    else buf != null && buf.pos == 0 && buf.data[..] == bytes
  }

  method SerializeServer(s: SrvConfig) returns (buf: Buffer?)
    ensures buf != null ==> fresh(buf) && fresh(buf.data)
    ensures Holds(buf, PutServer(s))
  {
    hide PutLE, Buffer.Valid;
    var size := 4 + 4 + (|s.endpoint| + 1) + (|s.aux| + 1) + 1 + 4;
    if size >= MAX_SIZE { return null; }
    buf := new Buffer(size);
    var ok := buf.PutNumber(4, Wrap32(s.id));
    assert buf.written == PutI32(s.id);
    ok := buf.PutNumber(4, Wrap32(s.dcId));
    ok := buf.PutString(s.endpoint);
    ok := buf.PutString(s.aux);
    ok := buf.PutByte(PutBool(s.learner));
    ok := buf.PutNumber(4, Wrap32(s.priority));
    assert buf.written == PutServer(s);
    buf.Rewind();
  }

  method SerializeConfig(c: ClusterConfig) returns (buf: Buffer?)
    ensures buf != null ==> fresh(buf) && fresh(buf.data)
    ensures Holds(buf, PutConfig(c))
  {
    hide PutLE, PutServers, Buffer.Valid, Flat;
    var parts := SerializeServers(c.servers);
    if parts.None? {
      assert |PutServers(c.servers)| >= MAX_SIZE;
      return null;
    }
    var size := 2 * 8 + 4 + 1 + TotalSize(parts.value) + 4 + |c.userCtx|;
    if size >= MAX_SIZE { return null; }
    buf := new Buffer(size);
    var ok := buf.PutNumber(8, c.logIdx);
    assert buf.written == PutU64(c.logIdx);
    ok := buf.PutNumber(8, c.prevLogIdx);
    ok := buf.PutByte(PutBool(c.async));
    ok := buf.PutBytes(c.userCtx);
    ok := buf.PutNumber(4, |c.servers| % 0x1_0000_0000);
    PutParts(buf, parts.value);
    assert buf.written == PutConfig(c);
    buf.Rewind();
  }

  /** One block per server; none if one of them does not fit a block. */
  method SerializeServers(servers: seq<SrvConfig>) returns (parts: Option<seq<seq<byte>>>)
    ensures parts.Some? ==> Flat(parts.value) == PutServers(servers)
    ensures parts.None? ==> |PutServers(servers)| >= MAX_SIZE
  {
    var done: seq<seq<byte>> := [];
    var i := 0;
    hide PutServer;
    while i < |servers|
      invariant 0 <= i <= |servers|
      invariant Flat(done) + PutServers(servers[i..]) == PutServers(servers)
    {
      var part := SerializeServer(servers[i]);
      assert servers[i..][1..] == servers[i + 1..];
      assert PutServers(servers[i..]) == PutServer(servers[i]) + PutServers(servers[i + 1..]);
      if part == null { return None; }
      FlatPush(done, part.data[..]);
      done := done + [part.data[..]];
      i := i + 1;
    }
    parts := Some(done);
  }

  function TotalSize(parts: seq<seq<byte>>): (n: nat)
    ensures n == |Flat(parts)|
  {
    if parts == [] then 0 else |parts[0]| + TotalSize(parts[1..])
  }

  function Flat(parts: seq<seq<byte>>): seq<byte> {
    if parts == [] then [] else parts[0] + Flat(parts[1..])
  }

  lemma {:induction false} FlatPush(parts: seq<seq<byte>>, p: seq<byte>)
    ensures Flat(parts + [p]) == Flat(parts) + p
  {
    if parts == [] {
      assert parts + [p] == [p];
      assert Flat([p][1..]) == [];
    } else {
      assert (parts + [p])[1..] == parts[1..] + [p];
      FlatPush(parts[1..], p);
    }
  }

  method PutParts(buf: Buffer, parts: seq<seq<byte>>)
    requires buf.Valid() && |buf.written| + |Flat(parts)| <= buf.data.Length
    modifies buf, buf.data
    ensures buf.Valid() && buf.written == old(buf.written) + Flat(parts)
  {
    var i := 0;
    while i < |parts|
      invariant 0 <= i <= |parts| && buf.Valid()
      invariant buf.written + Flat(parts[i..]) == old(buf.written) + Flat(parts)
    {
      assert parts[i..][1..] == parts[i + 1..];
      assert Flat(parts[i..]) == parts[i] + Flat(parts[i + 1..]);
      ghost var before := buf.written;
      var ok := buf.PutRaw(parts[i]);
      assert before + (parts[i] + Flat(parts[i + 1..])) == before + parts[i] + Flat(parts[i + 1..]);
      i := i + 1;
    }
  }

  method SerializeSnapshot(s: Snapshot) returns (buf: Buffer?)
    ensures buf != null ==> fresh(buf) && fresh(buf.data)
    ensures Holds(buf, PutSnapshot(s))
  {
    hide PutLE, PutConfig, Buffer.Valid;
    var conf := SerializeConfig(s.conf);
    if conf == null { return null; }
    var confBytes := conf.data[..];
    var size := |confBytes| + 8 * 3 + 1;
    if size >= MAX_SIZE { return null; }
    buf := new Buffer(size);
    var ok := buf.PutByte(s.kind);
    assert buf.written == [s.kind];
    ok := buf.PutNumber(8, s.lastLogIdx);
    ok := buf.PutNumber(8, s.lastLogTerm);
    ok := buf.PutNumber(8, s.size);
    ok := buf.PutRaw(confBytes);
    assert buf.written == PutSnapshot(s);
    buf.Rewind();
  }

  method SerializeSyncReq(r: SnapshotSyncReq) returns (buf: Buffer?)
    ensures buf != null ==> fresh(buf) && fresh(buf.data)
    ensures Holds(buf, PutSyncReq(r))
  {
    hide PutLE, PutSnapshot, Buffer.Valid;
    var snapshot := SerializeSnapshot(r.snapshot);
    if snapshot == null { return null; }
    var snapshotBytes := snapshot.data[..];
    var size := |snapshotBytes| + 8 + 1 + |r.data|;
    if size >= MAX_SIZE { return null; }
    buf := new Buffer(size);
    var ok := buf.PutRaw(snapshotBytes);
    assert buf.written == snapshotBytes;
    ok := buf.PutNumber(8, r.offset);
    ok := buf.PutByte(PutBool(r.done));
    ok := buf.PutRaw(r.data);
    assert buf.written == PutSyncReq(r);
    buf.Rewind();
  }

  // ----- readers

  method DeserializeServer(bs: BufferSerializer) returns (r: Option<SrvConfig>)
    requires bs.Valid()
    modifies bs`pos
    ensures bs.Valid() && Yields(ParseServer(old(bs.Rest())), r, bs.Rest())
  {
    hide ParseI32, ParseCstr, ParseU8, BufferSerializer.Valid, BufferSerializer.Rest;
    var id := bs.GetI32();
    if id.None? { return None; }
    var dcId := bs.GetI32();
    if dcId.None? { return None; }
    var endpoint := bs.GetCstr();
    if endpoint.None? { return None; }
    var aux := bs.GetCstr();
    if aux.None? { return None; }
    var learner := bs.GetU8();
    if learner.None? { return None; }
    var priority := bs.GetI32();
    if priority.None? { return None; }
    r := Some(SrvConfig(id.value, dcId.value, endpoint.value, aux.value, learner.value != 0, priority.value));
  }

  /** The servers read so far in front of those still to be read. */
  function Before(done: seq<SrvConfig>, p: Parsed<seq<SrvConfig>>): Parsed<seq<SrvConfig>> {
    match p
    case Fail => Fail
    case Ok(servers, rest) => Ok(done + servers, rest)
  }

  lemma BeforeStep(done: seq<SrvConfig>, count: int, bs: seq<byte>)
    requires count > 0
    ensures Before(done, ParseServers(count, bs)) ==
            match ParseServer(bs)
            case Fail => Fail
            case Ok(s, rest) => Before(done + [s], ParseServers(count - 1, rest))
  {
    hide ParseServer;
    match ParseServer(bs)
    case Fail =>
    case Ok(s, rest) =>
      var p := ParseServers(count - 1, rest);
      assert p.Ok? ==> done + ([s] + p.value) == done + [s] + p.value;
  }

  lemma BeforeAll(p: Parsed<seq<SrvConfig>>)
    ensures Before([], p) == p
  {
    assert p.Ok? ==> [] + p.value == p.value;
  }

  lemma BeforeNone(done: seq<SrvConfig>, count: int, bs: seq<byte>)
    requires count <= 0
    ensures Before(done, ParseServers(count, bs)) == Ok(done, bs)
  {
    assert done + [] == done;
  }

  method DeserializeServers(bs: BufferSerializer, count: int32) returns (r: Option<seq<SrvConfig>>)
    requires bs.Valid()
    modifies bs`pos
    ensures bs.Valid() && Yields(ParseServers(count, old(bs.Rest())), r, bs.Rest())
  {
    hide ParseServer, ParseServers, Before, BufferSerializer.Valid, BufferSerializer.Rest;
    var servers: seq<SrvConfig> := [];
    var left: int := count;
    ghost var all := ParseServers(count, bs.Rest());
    BeforeAll(all);
    while left > 0
      invariant bs.Valid() && all == Before(servers, ParseServers(left, bs.Rest()))
      invariant left <= 0 || left <= count
    {
      BeforeStep(servers, left, bs.Rest());
      var s := DeserializeServer(bs);
      if s.None? { return None; }
      servers := servers + [s.value];
      left := left - 1;
    }
    BeforeNone(servers, left, bs.Rest());
    r := Some(servers);
  }

  method DeserializeConfig(bs: BufferSerializer) returns (r: Option<ClusterConfig>)
    requires bs.Valid()
    modifies bs`pos
    ensures bs.Valid() && Yields(ParseConfig(old(bs.Rest())), r, bs.Rest())
  {
    hide ParseI32, ParseU64, ParseU8, ParseSized, ParseServers, BufferSerializer.Valid, BufferSerializer.Rest;
    var logIdx := bs.GetU64();
    if logIdx.None? { return None; }
    var prevLogIdx := bs.GetU64();
    if prevLogIdx.None? { return None; }
    var async := bs.GetU8();
    if async.None? { return None; }
    var userCtx := bs.GetBytes();
    if userCtx.None? { return None; }
    var count := bs.GetI32();
    if count.None? { return None; }
    var servers := DeserializeServers(bs, count.value);
    if servers.None? { return None; }
    r := Some(ClusterConfig(logIdx.value, prevLogIdx.value, async.value != 0, userCtx.value, servers.value));
  }

  method DeserializeSnapshot(bs: BufferSerializer) returns (r: Option<Snapshot>)
    requires bs.Valid()
    modifies bs`pos
    ensures bs.Valid() && Yields(ParseSnapshot(old(bs.Rest())), r, bs.Rest())
  {
    hide ParseU64, ParseU8, ParseConfig, BufferSerializer.Valid, BufferSerializer.Rest;
    var kind := bs.GetU8();
    if kind.None? { return None; }
    var lastLogIdx := bs.GetU64();
    if lastLogIdx.None? { return None; }
    var lastLogTerm := bs.GetU64();
    if lastLogTerm.None? { return None; }
    var size := bs.GetU64();
    if size.None? { return None; }
    var conf := DeserializeConfig(bs);
    if conf.None? { return None; }
    r := Some(Snapshot(kind.value, lastLogIdx.value, lastLogTerm.value, size.value, conf.value));
  }

  method DeserializeSyncReq(buf: array<byte>) returns (r: Option<SnapshotSyncReq>)
    ensures ParseSyncReq(buf[..]).Fail? ==> r == None
    ensures ParseSyncReq(buf[..]).Ok? ==> r == Some(ParseSyncReq(buf[..]).value)
  {
    hide ParseU64, ParseU8, ParseSnapshot, BufferSerializer.Valid;
    var bs := new BufferSerializer(buf[..]);
    var snapshot := DeserializeSnapshot(bs);
    if snapshot.None? { return None; }
    var offset := bs.GetU64();
    if offset.None? { return None; }
    var done := bs.GetU8();
    if done.None? { return None; }
    r := Some(SnapshotSyncReq(snapshot.value, offset.value, done.value == 1, buf[bs.pos..]));
  }

  /** Writing a request and reading it back. */
  method SyncReqRoundTrip(r: SnapshotSyncReq) returns (same: Option<SnapshotSyncReq>)
    requires SyncReqSize(r) < MAX_SIZE
    ensures same == Some(r) <==> CleanServers(r.snapshot.conf.servers)
  {
    hide PutSyncReq, ParseSyncReq, CleanServers;
    SyncReqRoundTripIff(r);
    SyncReqLength(r);
    var buf := SerializeSyncReq(r);
    same := DeserializeSyncReq(buf.data);
  }
}
