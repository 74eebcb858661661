/**
 The converse of the round trip: a message that the receiving side accepts is the encoding of
 what was read from it. Only bytes that the sender writes in one way and the reader takes in
 several (the marker, unused flag bits, the mark in front of an entry's CRC) are set apart.
 */
module RpcAccepted {
  import opened LogEntries
  import opened Codec
  import opened Crc32
  import opened Rpc

  // ----- fields

  lemma CrcForth(v: seq<byte>)
    requires |v| == 4
    ensures PutCrc(Word(v)) == v
  {
    hide PutCrc, Word;
    CrcBack(Word(v));
    WordInjective(PutCrc(Word(v)), v);
  }

  lemma ReadU8(bs: seq<byte>)
    ensures ParseU8(bs).Ok? ==> bs == [ParseU8(bs).value] + ParseU8(bs).rest
  {
  }

  lemma ReadI32(bs: seq<byte>)
    ensures ParseI32(bs).Ok? ==> bs == PutI32(ParseI32(bs).value) + ParseI32(bs).rest
  {
    hide PutLE, GetLE;
    if |bs| >= 4 {
      LEForth(bs[..4]);
      GetLEBound(bs[..4]);
      Sizes();
    }
  }

  lemma ReadU32(bs: seq<byte>)
    ensures ParseU32(bs).Ok? ==> bs == PutLE(4, ParseU32(bs).value) + ParseU32(bs).rest
  {
    hide PutLE, GetLE;
    if |bs| >= 4 { LEForth(bs[..4]); }
  }

  lemma ReadU64(bs: seq<byte>)
    ensures ParseU64(bs).Ok? ==> bs == PutU64(ParseU64(bs).value) + ParseU64(bs).rest
  {
    hide PutLE, GetLE;
    if |bs| >= 8 { LEForth(bs[..8]); }
  }

  lemma ReadCrc(bs: seq<byte>)
    ensures ParseCrc(bs).Ok? ==> bs == PutCrc(ParseCrc(bs).value) + ParseCrc(bs).rest
  {
    hide PutCrc, Word;
    if |bs| >= 4 { CrcForth(bs[..4]); }
  }

  lemma ReadSized(bs: seq<byte>)
    ensures ParseSized(bs).Ok? ==> bs == PutSized(ParseSized(bs).value) + ParseSized(bs).rest
  {
    hide PutLE, ParseU32;
    ReadU32(bs);
  }

  lemma ReadValue(bs: seq<byte>)
    ensures ParseValue(bs).Ok? ==> bs == PutSized(ParseValue(bs).value) + ParseValue(bs).rest
  {
    hide PutLE, ParseI32;
    ReadI32(bs);
  }

  // ----- entries

  /** Offset of the mark that says whether an entry has a CRC. */
  function MarkAt(timestamps: bool): nat { if timestamps then 17 else 9 }

  lemma ReadStamp(o: Options, bs: seq<byte>, e: LogEntry)
    ensures var p := ParseStamp(o.timestamps, bs);
            p.Ok? && e.timestamp == p.value ==> bs == PutStamp(o, e) + p.rest
  {
    hide PutLE, ParseU64;
    ReadU64(bs);
  }

  lemma ReadEntryCrc(o: Options, bs: seq<byte>, e: LogEntry)
    requires o.payloadCrc && bs != [] ==> bs[0] == 0 || bs[0] == 1
    ensures var p := ParseEntryCrc(o.payloadCrc, bs);
            p.Ok? && (e.hasCrc, e.crc) == p.value ==> bs == PutEntryCrc(o, e) + p.rest
  {
    hide PutCrc, ParseCrc;
    if o.payloadCrc && bs != [] {
      ReadCrc(bs[1..]);
      assert bs == [bs[0]] + bs[1..];
    }
  }

  lemma ReadEntry(o: Options, bs: seq<byte>)
    requires o.payloadCrc && MarkAt(o.timestamps) < |bs| ==> bs[MarkAt(o.timestamps)] == 0 || bs[MarkAt(o.timestamps)] == 1
    ensures var p := ParseEntry(o.timestamps, o.payloadCrc, bs);
            p.Ok? ==>
              EntryFits(p.value) && Consistent(o, p.value) && bs == PutEntry(o, p.value) + p.rest
  {
    hide PutLE, ParseU64, ParseU8, ParseStamp, ParseEntryCrc, ParseValue, PutStamp, PutEntryCrc, PutSized, Crc;
    var p := ParseEntry(o.timestamps, o.payloadCrc, bs);
    if p.Ok? {
      var e := p.value;
      var b1 := ParseU64(bs).rest;
      var b2 := ParseU8(b1).rest;
      var b3 := ParseStamp(o.timestamps, b2).rest;
      var b4 := ParseEntryCrc(o.payloadCrc, b3).rest;
      ReadU64(bs);
      ReadU8(b1);
      ReadStamp(o, b2, e);
      assert bs == PutU64(e.term) + ([e.valType] + (PutStamp(o, e) + b3));
      assert b3 != [] && MarkAt(o.timestamps) < |bs| ==> b3[0] == bs[MarkAt(o.timestamps)];
      ReadEntryCrc(o, b3, e);
      ReadValue(b4);
    }
  }

  /** The mark counts as set unless it is 0, and a CRC that is marked is that of the payload. */
  lemma MarkIsRead(timestamps: bool, bs: seq<byte>)
    requires ParseEntry(timestamps, true, bs).Ok?
    ensures var e := ParseEntry(timestamps, true, bs).value;
            && MarkAt(timestamps) < |bs| && (e.hasCrc <==> bs[MarkAt(timestamps)] != 0)
            && (e.hasCrc ==> e.crc == Crc(e.payload, 0))
  {
    hide PutLE, PutU64, ParseU64, ParseStamp, ParseCrc, ParseValue, PutStamp, Crc;
    var e := ParseEntry(timestamps, true, bs).value;
    var b1 := ParseU64(bs).rest;
    var b2 := ParseU8(b1).rest;
    var o := Options(timestamps, true, false);
    ReadU64(bs);
    ReadU8(b1);
    ReadStamp(o, b2, e);
    assert bs == PutU64(e.term) + ([e.valType] + (PutStamp(o, e) + ParseStamp(timestamps, b2).rest));
  }

  /** Marks are written as 0 or 1 and read as zero or not. */
  predicate PlainMarks(o: Options, bs: seq<byte>)
    decreases |bs|
  {
    |bs| >= EntrySize(o.timestamps, o.payloadCrc) ==>
      (ParseEntryShrinks(o.timestamps, o.payloadCrc, bs);
       var p := ParseEntry(o.timestamps, o.payloadCrc, bs);
       && (o.payloadCrc ==> bs[MarkAt(o.timestamps)] == 0 || bs[MarkAt(o.timestamps)] == 1)
       && (p.Ok? ==> PlainMarks(o, p.rest)))
  }

  lemma {:induction false} ReadEntries(o: Options, bs: seq<byte>)
    requires PlainMarks(o, bs)
    ensures var p := ParseEntries(o.timestamps, o.payloadCrc, bs);
            p.Ok? ==> EntriesFit(p.value) && AllConsistent(o, p.value) && bs == PutEntries(o, p.value)
    decreases |bs|
  {
    hide ParseEntry, PutEntry, EntryFits, Consistent;
    if |bs| >= EntrySize(o.timestamps, o.payloadCrc) && bs != [] {
      ParseEntryShrinks(o.timestamps, o.payloadCrc, bs);
      ReadEntry(o, bs);
      var p := ParseEntry(o.timestamps, o.payloadCrc, bs);
      if p.Ok? {
        ReadEntries(o, p.rest);
        var q := ParseEntries(o.timestamps, o.payloadCrc, p.rest);
        if q.Ok? { assert ([p.value] + q.value)[1..] == q.value; }
      }
    }
  }

  // ----- messages

  function OptionsOf(flags: nat): Options {
    Options(Has(flags, INCLUDE_LOG_TIMESTAMP), Has(flags, CRC_ON_PAYLOAD), Has(flags, CRC_ON_ENTIRE_MESSAGE))
  }

  function RequestOf(h: Head, entries: seq<LogEntry>): Request {
    Request(h.kind, h.src, h.dst, h.term, h.lastTerm, h.lastIdx, h.commit, entries)
  }

  lemma ReadHead(fields: seq<byte>, entries: seq<LogEntry>)
    requires |fields| == FIELDS && ParseHead(fields).Ok? && ParseHead(fields).value.size >= 0
    requires fields[0] == 0
    ensures var h := ParseHead(fields).value;
            h.marker == 0 && fields == PutFields(RequestOf(h, entries), h.size)
  {
    hide ParseU64, ParseI32, ParseU8, PutI32, PutU64;
    var h := ParseHead(fields).value;
    var b1 := ParseU8(fields).rest;
    var b2 := ParseU8(b1).rest;
    var b3 := ParseI32(b2).rest;
    var b4 := ParseI32(b3).rest;
    var b5 := ParseU64(b4).rest;
    var b6 := ParseU64(b5).rest;
    var b7 := ParseU64(b6).rest;
    var b8 := ParseU64(b7).rest;
    var b9 := ParseI32(b8).rest;
    ReadU8(fields);
    ReadU8(b1);
    ReadI32(b2);
    ReadI32(b3);
    ReadU64(b4);
    ReadU64(b5);
    ReadU64(b6);
    ReadU64(b7);
    ReadI32(b8);
    var put := PutFields(RequestOf(h, entries), h.size);
    assert fields == put + b9;
  }

  /** Meta string and entries, from a data part whose flags are those of its contents. */
  lemma ReadData(flags: nat, data: seq<byte>, h: Head)
    requires ParseData(flags, data).Ok?
    requires flags == Flags(OptionsOf(flags), ParseData(flags, data).value.0)
    requires var b1 := if Has(flags, INCLUDE_META) then ParseSized(data) else Ok([], data);
             b1.Ok? ==> PlainMarks(OptionsOf(flags), b1.rest)
    ensures var (o, (meta, entries)) := (OptionsOf(flags), ParseData(flags, data).value);
            EntriesFit(entries) && AllConsistent(o, entries) && data == Payload(o, RequestOf(h, entries), meta)
  {
    hide ParseEntries, PutEntries, ParseSized, PutSized, Has, PlainMarks;
    var (o, (meta, entries)) := (OptionsOf(flags), ParseData(flags, data).value);
    FlagsBack(o, meta);
    if data == [] {
      EmptyPayload(o, h);
    } else {
      if Has(flags, INCLUDE_META) {
        ReadSized(data);
        ReadEntries(o, ParseSized(data).rest);
      } else {
        ReadEntries(o, data);
      }
    }
  }

  lemma EmptyPayload(o: Options, h: Head)
    ensures Payload(o, RequestOf(h, []), []) == []
  {
  }

  /** The parts of a message, by position. */
  function FieldsOf(bs: seq<byte>): seq<byte>
    requires |bs| >= HEADER
  {
    bs[..46]
  }

  function FlagsIn(bs: seq<byte>): nat
    requires |bs| >= HEADER
  {
    GetLE(bs[50..54])
  }

  lemma Slices(bs: seq<byte>)
    requires |bs| >= HEADER
    ensures Take(FIELDS, bs) == Ok(FieldsOf(bs), bs[46..])
    ensures ParseCrc(bs[46..]) == Ok(Word(bs[46..50]), bs[50..])
    ensures ParseU32(bs[50..]) == Ok(FlagsIn(bs), bs[54..])
  {
    hide Word, GetLE;
    assert bs[46..][..4] == bs[46..50] && bs[46..][4..] == bs[50..];
    assert bs[50..][..4] == bs[50..54] && bs[50..][4..] == bs[54..];
  }

  /**
   What every accepted message satisfies: it is complete, does not carry the marker of a response,
   announces at most 1 GB of data, and its CRC is that of the header or of header and data.
   */
  lemma Opened(bs: seq<byte>)
    requires Decode(bs).Ok?
    ensures |bs| >= 54 && bs[0] != 1 && ParseHead(FieldsOf(bs)).Ok?
    ensures var h := ParseHead(FieldsOf(bs)).value;
            && 0 <= h.size <= 0x4000_0000 && 54 + h.size <= |bs|
            && var data := bs[54..54 + h.size];
               var body := ParseData(FlagsIn(bs), data);
               && Word(bs[46..50]) == MessageCrc(Has(FlagsIn(bs), CRC_ON_ENTIRE_MESSAGE), FieldsOf(bs), data)
               && body.Ok? && Decode(bs) == Ok((RequestOf(h, body.value.1), body.value.0), bs[54 + h.size..])
  {
    hide Word, GetLE, ParseCrc, ParseU32, ParseHead, ParseData, Has, Crc, FlagsIn;
    assert |bs| >= HEADER by { Short(bs); }
    Slices(bs);
    var h := ParseHead(FieldsOf(bs)).value;
    assert h.marker == bs[0] by { Marker(FieldsOf(bs)); }
    assert bs[54..][..h.size] == bs[54..54 + h.size] && bs[54..][h.size..] == bs[54 + h.size..];
  }

  lemma Short(bs: seq<byte>)
    ensures |bs| < HEADER ==> Decode(bs).Fail?
  {
    hide Word, GetLE, ParseHead, ParseData, Has, Crc;
  }

  lemma Marker(fields: seq<byte>)
    ensures ParseHead(fields).Ok? ==> fields != [] && ParseHead(fields).value.marker == fields[0]
  {
    hide ParseI32, ParseU64;
  }

  /** Written as a sender writes it: marker 0, no unused flag, the meta flag only for a meta string, plain marks. */
  ghost predicate Plain(bs: seq<byte>)
    requires Decode(bs).Ok?
  {
    |bs| >= HEADER && bs[0] == 0 &&
    var (flags, meta, end) := (FlagsIn(bs), Decode(bs).value.1, |bs| - |Decode(bs).rest|);
    && flags == Flags(OptionsOf(flags), meta)
    && HEADER + |PutMeta(meta)| <= end && PlainMarks(OptionsOf(flags), bs[HEADER + |PutMeta(meta)|..end])
  }

  /** A message that is accepted is the encoding of what was read from it, followed by what was not read. */
  lemma AcceptedIsEncoding(bs: seq<byte>)
    requires Decode(bs).Ok? && Plain(bs)
    ensures var (o, (r, meta)) := (OptionsOf(FlagsIn(bs)), Decode(bs).value);
            && EntriesFit(r.entries) && AllConsistent(o, r.entries) && |Payload(o, r, meta)| <= 0x4000_0000
            && bs == Encode(o, r, meta) + Decode(bs).rest
  {
    hide Decode, Word, GetLE, ParseHead, ParseData, Has, Crc, FlagsIn, PlainMarks, PutFields, PutCrc, PutLE, Payload,
         Flags, EntriesFit, AllConsistent;
    Opened(bs);
    var (o, h) := (OptionsOf(FlagsIn(bs)), ParseHead(FieldsOf(bs)).value);
    var (fields, data, rest) := (FieldsOf(bs), bs[54..54 + h.size], bs[54 + h.size..]);
    var (meta, entries) := ParseData(FlagsIn(bs), data).value;
    ReadHead(fields, entries);
    DataOf(FlagsIn(bs), data, h);
    CrcForth(bs[46..50]);
    LEForth(bs[50..54]);
    FlagsForth(bs);
    assert bs == fields + bs[46..50] + bs[50..54] + data + rest;
  }

  lemma FlagsForth(bs: seq<byte>)
    requires |bs| >= HEADER
    ensures PutLE(4, FlagsIn(bs)) == bs[50..54]
  {
    hide PutLE, GetLE;
    LEForth(bs[50..54]);
  }

  lemma DataOf(flags: nat, data: seq<byte>, h: Head)
    requires ParseData(flags, data).Ok?
    requires var meta := ParseData(flags, data).value.0;
             && flags == Flags(OptionsOf(flags), meta)
             && |PutMeta(meta)| <= |data| && PlainMarks(OptionsOf(flags), data[|PutMeta(meta)|..])
    ensures var (o, (meta, entries)) := (OptionsOf(flags), ParseData(flags, data).value);
            EntriesFit(entries) && AllConsistent(o, entries) && data == Payload(o, RequestOf(h, entries), meta)
  {
    hide ParseEntries, ParseSized, PutSized, Has, PlainMarks, Flags, EntriesFit, AllConsistent, Payload;
    var meta := ParseData(flags, data).value.0;
    FlagsBack(OptionsOf(flags), meta);
    ReadSized(data);
    assert data[0..] == data;
    ReadData(flags, data, h);
  }
}
