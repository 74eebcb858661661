/**
 Encoding a request into a buffer through a moving cursor, decoding it in a loop, and the
 log entry object that keeps its CRC in step with its payload.
 */
module RpcSession {
  import opened Basics
  import opened LogEntries
  import opened Codec
  import opened Crc32
  import opened Rpc
  import opened Buffers

  // ----- the log entry object

  class EntryObject {
    const term: nat
    const valType: byte
    const timestamp: nat
    var buf: Option<seq<byte>>
    var hasCrc: bool
    var crc: bv32

    /** A stored CRC is that of the payload. */
    ghost predicate CrcOk()
      reads this
    {
      hasCrc && buf.Some? ==> crc == Crc(buf.value, 0)
    }

    constructor (term: nat, buf: Option<seq<byte>>, valType: byte, timestamp: nat,
                 hasCrc: bool, crc: bv32, computeCrc: bool)
      ensures this.term == term && this.buf == buf && this.valType == valType && this.timestamp == timestamp
      ensures this.hasCrc == (hasCrc || (computeCrc && buf.Some?))
      ensures hasCrc ==> this.crc == crc
      ensures CrcOk() <==> (hasCrc && buf.Some? ==> crc == Crc(buf.value, 0))
    {
      this.term := term;
      this.buf := buf;
      this.valType := valType;
      this.timestamp := timestamp;
      this.hasCrc := hasCrc;
      this.crc := crc;
      new;
      if buf.Some? && !hasCrc && computeCrc {
        this.hasCrc := true;
        var c := Crc32By8(buf.value, 0);
        this.crc := c;
      }
    }

    method ChangeBuf(newBuf: Option<seq<byte>>)
      modifies this`buf, this`crc
      ensures buf == newBuf && CrcOk()
      ensures !hasCrc ==> crc == old(crc)
    {
      buf := newBuf;
      if buf.Some? && hasCrc {
        var c := Crc32By8(buf.value, 0);
        crc := c;
      }
    }
  }

  // ----- encoder

  method EncodeEntry(o: Options, e: LogEntry) returns (buf: Buffer?)
    requires EntryFits(e)
    ensures buf != null ==> fresh(buf) && fresh(buf.data)
    ensures Holds(buf, PutEntry(o, e))
  {
    hide PutLE, PutStamp, PutEntryCrc, PutSized, Buffer.Valid;
    EntryLength(o, e);
    var size := 8 + 1 + 4;
    if o.timestamps { size := size + 8; }
    if o.payloadCrc { size := size + 5; }
    size := size + |e.payload|;
    if size >= MAX_SIZE { return null; }
    buf := new Buffer(size);
    var ok := buf.PutNumber(8, e.term);
    assert buf.written == PutLE(8, e.term);
    ok := buf.PutByte(e.valType);
    WriteStamp(buf, o, e);
    WriteCrc(buf, o, e);
    ok := buf.PutBytes(e.payload);
    buf.Rewind();
  }

  method WriteStamp(buf: Buffer, o: Options, e: LogEntry)
    requires buf.Valid() && |buf.written| + |PutStamp(o, e)| <= buf.data.Length
    modifies buf, buf.data
    ensures buf.Valid() && buf.written == old(buf.written) + PutStamp(o, e)
  {
    hide PutLE, Buffer.Valid;
    if o.timestamps { var _ := buf.PutNumber(8, e.timestamp); }
  }

  method WriteCrc(buf: Buffer, o: Options, e: LogEntry)
    requires buf.Valid() && |buf.written| + |PutEntryCrc(o, e)| <= buf.data.Length
    modifies buf, buf.data
    ensures buf.Valid() && buf.written == old(buf.written) + PutEntryCrc(o, e)
  {
    hide PutCrc, Buffer.Valid;
    if o.payloadCrc {
      var _ := buf.PutByte(PutBool(e.hasCrc));
      var _ := buf.PutRaw(PutCrc(e.crc));
    }
  }

  /** One block per entry; none if one of them does not fit a block. */
  method EncodeEntries(o: Options, entries: seq<LogEntry>) returns (parts: Option<seq<seq<byte>>>)
    requires EntriesFit(entries)
    ensures parts.Some? ==> Flat(parts.value) == PutEntries(o, entries)
    ensures parts.None? ==> |PutEntries(o, entries)| >= MAX_SIZE
  {
    hide PutEntry, Buffer.Valid;
    var done: seq<seq<byte>> := [];
    var i := 0;
    while i < |entries|
      invariant 0 <= i <= |entries|
      invariant Flat(done) + PutEntries(o, entries[i..]) == PutEntries(o, entries)
    {
      var part := EncodeEntry(o, entries[i]);
      assert entries[i..][1..] == entries[i + 1..];
      assert PutEntries(o, entries[i..]) == PutEntry(o, entries[i]) + PutEntries(o, entries[i + 1..]);
      if part == null { return None; }
      FlatPush(done, part.data[..]);
      assert Flat(done) + (part.data[..] + PutEntries(o, entries[i + 1..]))
          == Flat(done) + part.data[..] + PutEntries(o, entries[i + 1..]);
      done := done + [part.data[..]];
      i := i + 1;
    }
    parts := Some(done);
  }

  method PutHeader(buf: Buffer, r: Request, size: nat)
    requires buf.Valid() && buf.written == [] && HEADER <= buf.data.Length && size < 0x8000_0000
    modifies buf, buf.data
    ensures buf.Valid() && buf.written == PutFields(r, size)
  {
    hide PutLE, Buffer.Valid;
    var ok := buf.PutByte(0);
    assert buf.written == [0];
    ok := buf.PutByte(r.kind);
    ok := buf.PutNumber(4, Wrap32(r.src));
    ok := buf.PutNumber(4, Wrap32(r.dst));
    ok := buf.PutNumber(8, r.term);
    ok := buf.PutNumber(8, r.lastTerm);
    ok := buf.PutNumber(8, r.lastIdx);
    ok := buf.PutNumber(8, r.commit);
    ok := buf.PutNumber(4, Wrap32(size));
  }

  /** A message whose CRC field has been replaced by the CRC continued over its data part. */
  function Covered(message: seq<byte>, headerCrc: bv32): seq<byte>
    requires HEADER <= |message|
  {
    message[..FIELDS] + PutCrc(Crc(message[HEADER..], headerCrc)) + message[FIELDS + 4..]
  }

  lemma CoveredIsEncode(o: Options, r: Request, meta: seq<byte>, fields: seq<byte>, headerCrc: bv32)
    requires o.entireCrc && |Payload(o, r, meta)| < 0x8000_0000
    requires fields == PutFields(r, |Payload(o, r, meta)|) && headerCrc == Crc(fields, 0)
    ensures Covered(fields + PutCrc(headerCrc) + (PutLE(4, Flags(o, meta)) + Payload(o, r, meta)), headerCrc)
            == Encode(o, r, meta)
  {
    hide PutCrc, PutLE, PutFields, Payload, Flags, Crc;
    var payload := Payload(o, r, meta);
    var rest := PutLE(4, Flags(o, meta)) + payload;
    var message := fields + PutCrc(headerCrc) + rest;
    assert message[..FIELDS] == fields && message[FIELDS + 4..] == rest && message[HEADER..] == payload;
    var crc := Crc(payload, headerCrc);
    assert fields + PutCrc(crc) + rest == fields + PutCrc(crc) + PutLE(4, Flags(o, meta)) + payload;
  }

  /** Header with its own CRC, flags and payload. */
  method WriteMessage(buf: Buffer, o: Options, r: Request, meta: seq<byte>, parts: seq<seq<byte>>)
    returns (fields: seq<byte>, headerCrc: bv32)
    requires buf.Valid() && buf.written == [] && Flat(parts) == PutEntries(o, r.entries)
    requires |Payload(o, r, meta)| < 0x8000_0000 && buf.data.Length == HEADER + |Payload(o, r, meta)|
    modifies buf, buf.data
    ensures fields == PutFields(r, |Payload(o, r, meta)|) && headerCrc == Crc(fields, 0)
    ensures buf.Valid()
    ensures buf.written == fields + PutCrc(headerCrc) + (PutLE(4, Flags(o, meta)) + Payload(o, r, meta))
  {
    hide PutLE, PutFields, PutCrc, PutEntries, PutMeta, Buffer.Valid, Flat, Crc, Flags;
    PutHeader(buf, r, |PutMeta(meta)| + TotalSize(parts));
    fields := buf.Bytes(0);
    headerCrc := Crc32By8(fields, 0);
    var ok := buf.PutRaw(PutCrc(headerCrc));
    ok := buf.PutNumber(4, Flags(o, meta));
    PutPayload(buf, meta, parts);
  }

  /** The CRC field is written with the header and overwritten if the whole message is covered. */
  method EncodeRequest(o: Options, r: Request, meta: seq<byte>) returns (buf: Buffer?)
    requires EntriesFit(r.entries)
    ensures buf != null ==> fresh(buf) && fresh(buf.data)
    ensures HEADER + |Payload(o, r, meta)| >= MAX_SIZE ==> buf == null
    ensures HEADER + |Payload(o, r, meta)| < MAX_SIZE ==> Holds(buf, Encode(o, r, meta))
  {
    hide PutLE, PutFields, PutCrc, PutEntries, PutMeta, Buffer.Valid, Flat, Crc, Flags, Covered;
    var parts := EncodeEntries(o, r.entries);
    if parts.None? { return null; }
    MetaLength(meta);
    var metaBytes := if meta == [] then 0 else 4 + |meta|;
    var size := metaBytes + TotalSize(parts.value);
    if HEADER + size >= MAX_SIZE { return null; }
    buf := new Buffer(HEADER + size);
    var fields, headerCrc := WriteMessage(buf, o, r, meta, parts.value);
    EncodeLength(o, r, meta);
    if o.entireCrc {
      CoveredIsEncode(o, r, meta, fields, headerCrc);
      CoverMessage(buf, headerCrc);
    }
    buf.Rewind();
  }

  method CoverMessage(buf: Buffer, headerCrc: bv32)
    requires buf.Valid() && HEADER <= |buf.written|
    modifies buf, buf.data
    ensures buf.Valid() && buf.written == Covered(old(buf.written), headerCrc)
  {
    hide PutCrc, Buffer.Valid, Crc;
    var payload := buf.Bytes(HEADER);
    var crc := Crc32By8(payload, headerCrc);
    buf.Overwrite(FIELDS, PutCrc(crc));
  }

  lemma MetaLength(meta: seq<byte>)
    ensures |PutMeta(meta)| == if meta == [] then 0 else 4 + |meta|
  {
  }

  method PutPayload(buf: Buffer, meta: seq<byte>, parts: seq<seq<byte>>)
    requires buf.Valid() && |buf.written| + |PutMeta(meta)| + |Flat(parts)| <= buf.data.Length
    modifies buf, buf.data
    ensures buf.Valid() && buf.written == old(buf.written) + (PutMeta(meta) + Flat(parts))
  {
    hide PutSized, Buffer.Valid, Flat;
    MetaLength(meta);
    if meta != [] { var _ := buf.PutBytes(meta); }
    assert buf.written == old(buf.written) + PutMeta(meta);
    PutParts(buf, parts);
  }

  // ----- decoder

  method DecodeCrc(bs: BufferSerializer) returns (r: Option<bv32>)
    requires bs.Valid()
    modifies bs`pos
    ensures bs.Valid() && Yields(ParseCrc(old(bs.Rest())), r, bs.Rest())
  {
    hide Word, BufferSerializer.Valid, BufferSerializer.Rest;
    var raw := bs.GetRaw(4);
    if raw.None? { return None; }
    LoadIsWord(raw.value, 0);
    assert raw.value[0..4] == raw.value;
    r := Some(Load(raw.value, 0));
  }

  method DecodeEntry(bs: BufferSerializer, timestamps: bool, payloadCrc: bool) returns (r: Option<LogEntry>)
    requires bs.Valid()
    modifies bs`pos
    ensures bs.Valid() && Yields(ParseEntry(timestamps, payloadCrc, old(bs.Rest())), r, bs.Rest())
  {
    hide ParseU64, ParseU8, ParseI32, ParseCrc, Take, Crc, BufferSerializer.Valid, BufferSerializer.Rest;
    var term := bs.GetU64();
    if term.None? { return None; }
    var valType := bs.GetU8();
    if valType.None? { return None; }
    var timestamp: uint64 := 0;
    if timestamps {
      var t := bs.GetU64();
      if t.None? { return None; }
      timestamp := t.value;
    }
    var hasCrc, crc := false, 0;
    if payloadCrc {
      var has := bs.GetU8();
      if has.None? { return None; }
      var c := DecodeCrc(bs);
      if c.None? { return None; }
      hasCrc, crc := has.value != 0, c.value;
    }
    var size := bs.GetI32();
    if size.None? || size.value < 0 { return None; }
    var payload := bs.GetRaw(size.value);
    if payload.None? { return None; }
    if hasCrc {
      var c := Crc32By8(payload.value, 0);
      if c != crc { return None; }
    }
    r := Some(LogEntry(term.value, valType.value, payload.value, timestamp, hasCrc, crc));
  }

  /** The entries read so far in front of those still to be read. */
  function Ahead(done: seq<LogEntry>, p: Parsed<seq<LogEntry>>): Parsed<seq<LogEntry>> {
    match p
    case Fail => Fail
    case Ok(entries, rest) => Ok(done + entries, rest)
  }

  lemma AheadStep(done: seq<LogEntry>, timestamps: bool, payloadCrc: bool, bs: seq<byte>)
    requires |bs| >= EntrySize(timestamps, payloadCrc)
    ensures var p := ParseEntry(timestamps, payloadCrc, bs);
            Ahead(done, ParseEntries(timestamps, payloadCrc, bs)) ==
            if p.Fail? then Fail else Ahead(done + [p.value], ParseEntries(timestamps, payloadCrc, p.rest))
  {
    hide ParseEntry;
    var p := ParseEntry(timestamps, payloadCrc, bs);
    if p.Ok? {
      var q := ParseEntries(timestamps, payloadCrc, p.rest);
      assert q.Ok? ==> done + ([p.value] + q.value) == done + [p.value] + q.value;
    }
  }

  lemma AheadEnds(done: seq<LogEntry>, timestamps: bool, payloadCrc: bool, bs: seq<byte>)
    requires |bs| < EntrySize(timestamps, payloadCrc)
    ensures Ahead(done, ParseEntries(timestamps, payloadCrc, bs)) == if bs == [] then Ok(done, []) else Fail
  {
    hide ParseEntry;
    assert done + [] == done;
  }

  lemma AheadAll(p: Parsed<seq<LogEntry>>)
    ensures Ahead([], p) == p
  {
    assert p.Ok? ==> [] + p.value == p.value;
  }

  method DecodeEntries(bs: BufferSerializer, timestamps: bool, payloadCrc: bool) returns (r: Option<seq<LogEntry>>)
    requires bs.Valid()
    modifies bs`pos
    ensures bs.Valid() && Yields(ParseEntries(timestamps, payloadCrc, old(bs.Rest())), r, bs.Rest())
  {
    hide ParseEntry, ParseEntries, Ahead, BufferSerializer.Rest;
    var entries: seq<LogEntry> := [];
    ghost var all := ParseEntries(timestamps, payloadCrc, bs.Rest());
    AheadAll(all);
    while |bs.buf| > bs.pos
      invariant bs.Valid() && all == Ahead(entries, ParseEntries(timestamps, payloadCrc, bs.Rest()))
      decreases |bs.Rest()|
    {
      RestLength(bs);
      if |bs.buf| - bs.pos < EntrySize(timestamps, payloadCrc) {
        AheadEnds(entries, timestamps, payloadCrc, bs.Rest());
        return None;
      }
      AheadStep(entries, timestamps, payloadCrc, bs.Rest());
      ParseEntryShrinks(timestamps, payloadCrc, bs.Rest());
      var e := DecodeEntry(bs, timestamps, payloadCrc);
      if e.None? { return None; }
      entries := entries + [e.value];
    }
    RestLength(bs);
    AheadEnds(entries, timestamps, payloadCrc, bs.Rest());
    r := Some(entries);
  }

  lemma RestLength(bs: BufferSerializer)
    requires bs.Valid()
    ensures |bs.Rest()| == |bs.buf| - bs.pos
  {
  }

  method DecodeData(flags: nat, data: seq<byte>) returns (r: Option<(seq<byte>, seq<LogEntry>)>)
    ensures ParseData(flags, data).Fail? ==> r == None
    ensures ParseData(flags, data).Ok? ==> r == Some(ParseData(flags, data).value)
  {
    hide ParseEntries, ParseSized, BufferSerializer.Valid, BufferSerializer.Rest;
    if data == [] { return Some(([], [])); }
    var bs := new BufferSerializer(data);
    var meta: seq<byte> := [];
    if Has(flags, INCLUDE_META) {
      var m := bs.GetBytes();
      if m.None? { return None; }
      meta := m.value;
    }
    var entries := DecodeEntries(bs, Has(flags, INCLUDE_LOG_TIMESTAMP), Has(flags, CRC_ON_PAYLOAD));
    if entries.None? { return None; }
    r := Some((meta, entries.value));
  }

  method DecodeHead(fields: seq<byte>) returns (r: Option<Head>)
    ensures ParseHead(fields).Fail? ==> r == None
    ensures ParseHead(fields).Ok? ==> r == Some(ParseHead(fields).value)
  {
    hide ParseU64, ParseU8, ParseI32, BufferSerializer.Valid, BufferSerializer.Rest;
    var bs := new BufferSerializer(fields);
    var marker := bs.GetU8();
    if marker.None? { return None; }
    var kind := bs.GetU8();
    if kind.None? { return None; }
    var src := bs.GetI32();
    if src.None? { return None; }
    var dst := bs.GetI32();
    if dst.None? { return None; }
    var term := bs.GetU64();
    if term.None? { return None; }
    var lastTerm := bs.GetU64();
    if lastTerm.None? { return None; }
    var lastIdx := bs.GetU64();
    if lastIdx.None? { return None; }
    var commit := bs.GetU64();
    if commit.None? { return None; }
    var size := bs.GetI32();
    if size.None? { return None; }
    r := Some(Head(marker.value, kind.value, src.value, dst.value, term.value, lastTerm.value, lastIdx.value,
                   commit.value, size.value));
  }

  /** A message is refused at the first check that fails. */
  method DecodeRequest(stream: seq<byte>) returns (r: Option<(Request, seq<byte>)>)
    ensures Decode(stream).Fail? ==> r == None
    ensures Decode(stream).Ok? ==> r == Some(Decode(stream).value)
  {
    hide Take, ParseCrc, ParseU32, ParseHead, ParseData, Has, Crc, BufferSerializer.Valid, BufferSerializer.Rest;
    var bs := new BufferSerializer(stream);
    var fields := bs.GetRaw(FIELDS);
    if fields.None? { return None; }
    var headerCrc := Crc32By8(fields.value, 0);
    var crc := DecodeCrc(bs);
    if crc.None? { return None; }
    var flags := bs.GetU32();
    if flags.None? { return None; }
    var entire := Has(flags.value, CRC_ON_ENTIRE_MESSAGE);
    var head := DecodeHead(fields.value);
    if head.None? { return None; }
    var h := head.value;
    if !entire && headerCrc != crc.value { return None; }
    if h.marker == 1 || h.size < 0 || h.size > MAX_DATA { return None; }
    var data := bs.GetRaw(h.size);
    if data.None? { return None; }
    if entire {
      var dataCrc := Crc32By8(data.value, headerCrc);
      if dataCrc != crc.value { return None; }
    }
    var body := DecodeData(flags.value, data.value);
    if body.None? { return None; }
    r := Some((Request(h.kind, h.src, h.dst, h.term, h.lastTerm, h.lastIdx, h.commit, body.value.1), body.value.0));
  }

  /** Encoding a request and decoding the bytes. */
  method RequestRoundTrip(o: Options, r: Request, meta: seq<byte>) returns (got: Option<(Request, seq<byte>)>)
    requires EntriesFit(r.entries) && HEADER + |Payload(o, r, meta)| < MAX_SIZE
    ensures got.Some? <==> |Payload(o, r, meta)| <= 0x4000_0000 && AllConsistent(o, r.entries)
    ensures got.Some? ==> got.value == (r.(entries := CarriedAll(o, r.entries)), meta)
  {
    hide Payload, Encode, Decode, AllConsistent;
    RequestRoundTripIff(o, r, meta);
    EncodeLength(o, r, meta);
    var buf := EncodeRequest(o, r, meta);
    got := DecodeRequest(buf.data[..]);
  }
}
