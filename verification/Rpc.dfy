/**
 The request format of the RPC layer: a 54-byte header with flags and a CRC, an optional
 meta string, and log entries whose layout depends on the flags.
 */
module Rpc {
  import opened LogEntries
  import opened Codec
  import opened Crc32

  const HEADER: nat := 54        // all of the header
  const FIELDS: nat := 46        // the header without CRC and flags
  const MAX_DATA: nat := 0x4000_0000

  const INCLUDE_META: nat := 0x1
  const INCLUDE_LOG_TIMESTAMP: nat := 0x4
  const CRC_ON_ENTIRE_MESSAGE: nat := 0x8
  const CRC_ON_PAYLOAD: nat := 0x10

  datatype Options = Options(timestamps: bool, payloadCrc: bool, entireCrc: bool)

  datatype Request = Request(
    kind: byte, src: int32, dst: int32,
    term: uint64, lastTerm: uint64, lastIdx: uint64, commit: uint64,
    entries: seq<LogEntry>)

  /** The 64-bit fields of an entry. */
  predicate EntryFits(e: LogEntry) {
    e.term < 0x1_0000_0000_0000_0000 && e.timestamp < 0x1_0000_0000_0000_0000
  }

  predicate EntriesFit(entries: seq<LogEntry>) {
    forall i :: 0 <= i < |entries| ==> EntryFits(entries[i])
  }

  // ----- CRC fields

  function Narrow(x: bv32): byte
    requires x & 0xFFFFFF00 == 0
  {
    x as bv8
  }

  lemma ByteNarrow(x: bv32)
    ensures Byte(x) & 0xFFFFFF00 == 0
  {
  }

  lemma NarrowWiden(x: bv32)
    requires x & 0xFFFFFF00 == 0
    ensures Widen(Narrow(x)) == x
  {
  }

  function LowByte(x: bv32): byte {
    ByteNarrow(x);
    Narrow(Byte(x))
  }

  lemma LowByteIs(x: bv32)
    ensures Widen(LowByte(x)) == Byte(x)
  {
    hide Narrow, Byte, Widen;
    ByteNarrow(x);
    NarrowWiden(Byte(x));
  }

  /** The CRC as four little-endian bytes. */
  function PutCrc(c: bv32): (bs: seq<byte>)
    ensures |bs| == 4
  {
    [LowByte(c), LowByte(High(c)), LowByte(High(High(c))), LowByte(High(High(High(c))))]
  }

  lemma Rejoin(c: bv32)
    ensures Xor(Byte(c), Lift(High(c))) == c
  {
  }

  lemma FourBytes(a: byte, b: byte, c: byte, d: byte)
    ensures Word([a, b, c, d]) ==
            Xor(Widen(a), Lift(Xor(Widen(b), Lift(Xor(Widen(c), Lift(Xor(Widen(d), Lift(0))))))))
  {
    hide Xor, Lift, Widen;
    assert [a, b, c, d][1..] == [b, c, d] && [b, c, d][1..] == [c, d] && [c, d][1..] == [d] && [d][1..] == [];
    assert Word([d]) == Xor(Widen(d), Lift(Word([])));
    assert Word([c, d]) == Xor(Widen(c), Lift(Word([d])));
  }

  lemma CrcBack(c: bv32)
    ensures Word(PutCrc(c)) == c
  {
    hide Xor, Lift, Widen, LowByte, High, Byte, Word;
    var (c1, c2, c3) := (High(c), High(High(c)), High(High(High(c))));
    FourBytes(LowByte(c), LowByte(c1), LowByte(c2), LowByte(c3));
    LowByteIs(c);
    LowByteIs(c1);
    LowByteIs(c2);
    LowByteIs(c3);
    FourHighs(c);
    Rejoin(c3);
    Rejoin(c2);
    Rejoin(c1);
    Rejoin(c);
  }

  // ----- flags

  predicate Has(flags: nat, flag: nat)
    requires flag > 0
  {
    flags / flag % 2 == 1
  }

  function Flags(o: Options, meta: seq<byte>): nat {
    (if meta != [] then INCLUDE_META else 0)
    + (if o.timestamps then INCLUDE_LOG_TIMESTAMP else 0)
    + (if o.entireCrc then CRC_ON_ENTIRE_MESSAGE else 0)
    + (if o.payloadCrc then CRC_ON_PAYLOAD else 0)
  }

  lemma FlagsBack(o: Options, meta: seq<byte>)
    ensures Flags(o, meta) < 32
    ensures Has(Flags(o, meta), INCLUDE_META) <==> meta != []
    ensures Has(Flags(o, meta), INCLUDE_LOG_TIMESTAMP) <==> o.timestamps
    ensures Has(Flags(o, meta), CRC_ON_ENTIRE_MESSAGE) <==> o.entireCrc
    ensures Has(Flags(o, meta), CRC_ON_PAYLOAD) <==> o.payloadCrc
  {
  }

  // ----- writing

  function PutStamp(o: Options, e: LogEntry): (bs: seq<byte>)
    ensures |bs| == if o.timestamps then 8 else 0
  {
    if o.timestamps then PutLE(8, e.timestamp) else []
  }

  function PutEntryCrc(o: Options, e: LogEntry): (bs: seq<byte>)
    ensures |bs| == if o.payloadCrc then 5 else 0
  {
    if o.payloadCrc then [PutBool(e.hasCrc)] + PutCrc(e.crc) else []
  }

  function PutEntry(o: Options, e: LogEntry): seq<byte> {
    PutLE(8, e.term) + [e.valType] + PutStamp(o, e) + PutEntryCrc(o, e) + PutSized(e.payload)
  }

  function PutEntries(o: Options, entries: seq<LogEntry>): seq<byte> {
    if entries == [] then [] else PutEntry(o, entries[0]) + PutEntries(o, entries[1..])
  }

  function PutMeta(meta: seq<byte>): seq<byte> {
    if meta == [] then [] else PutSized(meta)
  }

  function Payload(o: Options, r: Request, meta: seq<byte>): seq<byte> {
    PutMeta(meta) + PutEntries(o, r.entries)
  }

  function PutFields(r: Request, size: nat): (bs: seq<byte>)
    requires size < 0x8000_0000
    ensures |bs| == FIELDS
  {
    [0] + [r.kind] + PutI32(r.src) + PutI32(r.dst) + PutU64(r.term) + PutU64(r.lastTerm)
    + PutU64(r.lastIdx) + PutU64(r.commit) + PutI32(size)
  }

  /** The header CRC, continued over the payload if the whole message is covered. */
  function MessageCrc(entire: bool, fields: seq<byte>, payload: seq<byte>): bv32 {
    if entire then Crc(payload, Crc(fields, 0)) else Crc(fields, 0)
  }

  /** The low half of the last header field is the CRC, the high half the flags. */
  function Encode(o: Options, r: Request, meta: seq<byte>): seq<byte>
    requires |Payload(o, r, meta)| < 0x8000_0000
  {
    var payload := Payload(o, r, meta);
    var fields := PutFields(r, |payload|);
    fields + PutCrc(MessageCrc(o.entireCrc, fields, payload)) + PutLE(4, Flags(o, meta)) + payload
  }

  lemma EncodeLength(o: Options, r: Request, meta: seq<byte>)
    requires |Payload(o, r, meta)| < 0x8000_0000
    ensures |Encode(o, r, meta)| == HEADER + |Payload(o, r, meta)|
  {
    hide Payload, PutFields, PutCrc, PutLE, MessageCrc, Flags;
  }

  // ----- reading

  /** Size of an entry without its payload. */
  function EntrySize(timestamps: bool, payloadCrc: bool): nat {
    13 + (if timestamps then 8 else 0) + (if payloadCrc then 5 else 0)
  }

  function ParseCrc(bs: seq<byte>): Parsed<bv32> {
    match Take(4, bs)
    case Fail => Fail
    case Ok(v, rest) => Ok(Word(v), rest)
  }

  function ParseStamp(present: bool, bs: seq<byte>): Parsed<uint64> {
    if present then ParseU64(bs) else Ok(0, bs)
  }

  /** Whether the entry has a CRC, and which. */
  function ParseEntryCrc(present: bool, bs: seq<byte>): Parsed<(bool, bv32)> {
    if !present then Ok((false, 0), bs)
    else
      match ParseU8(bs) case Fail => Fail case Ok(has, b1) =>
      match ParseCrc(b1) case Fail => Fail case Ok(crc, rest) => Ok((has != 0, crc), rest)
  }

  /** A value size that is negative as a signed number is larger than any message. */
  function ParseValue(bs: seq<byte>): Parsed<seq<byte>> {
    match ParseI32(bs)
    case Fail => Fail
    case Ok(n, rest) => if n < 0 then Fail else Take(n, rest)
  }

  function ParseEntry(timestamps: bool, payloadCrc: bool, bs: seq<byte>): Parsed<LogEntry> {
    match ParseU64(bs) case Fail => Fail case Ok(term, b1) =>
    match ParseU8(b1) case Fail => Fail case Ok(valType, b2) =>
    match ParseStamp(timestamps, b2) case Fail => Fail case Ok(timestamp, b3) =>
    match ParseEntryCrc(payloadCrc, b3) case Fail => Fail case Ok(crc, b4) =>
    match ParseValue(b4) case Fail => Fail case Ok(payload, rest) =>
      if crc.0 && crc.1 != Crc(payload, 0) then Fail
      else Ok(LogEntry(term, valType, payload, timestamp, crc.0, crc.1), rest)
  }

  /** Every entry consumes bytes, so the decode loop ends. */
  lemma ParseEntryShrinks(timestamps: bool, payloadCrc: bool, bs: seq<byte>)
    ensures ParseEntry(timestamps, payloadCrc, bs).Ok? ==>
              |ParseEntry(timestamps, payloadCrc, bs).rest| + EntrySize(timestamps, payloadCrc) <= |bs|
  {
    hide Crc, GetLE, Word;
  }

  function ParseEntries(timestamps: bool, payloadCrc: bool, bs: seq<byte>): Parsed<seq<LogEntry>>
    decreases |bs|
  {
    if bs == [] then Ok([], [])
    else if |bs| < EntrySize(timestamps, payloadCrc) then Fail
    else
      ParseEntryShrinks(timestamps, payloadCrc, bs);
      match ParseEntry(timestamps, payloadCrc, bs)
      case Fail => Fail
      case Ok(e, b1) =>
        match ParseEntries(timestamps, payloadCrc, b1)
        case Fail => Fail
        case Ok(entries, rest) => Ok([e] + entries, rest)
  }

  function ParseMeta(present: bool, bs: seq<byte>): Parsed<seq<byte>> {
    if present then ParseSized(bs) else Ok([], bs)
  }

  /** Meta string and entries of a message's data part. */
  function ParseData(flags: nat, bs: seq<byte>): Parsed<(seq<byte>, seq<LogEntry>)> {
    if bs == [] then Ok(([], []), [])
    else
      match ParseMeta(Has(flags, INCLUDE_META), bs) case Fail => Fail case Ok(meta, b1) =>
      match ParseEntries(Has(flags, INCLUDE_LOG_TIMESTAMP), Has(flags, CRC_ON_PAYLOAD), b1)
      case Fail => Fail
      case Ok(entries, rest) => Ok((meta, entries), rest)
  }

  datatype Head = Head(marker: byte, kind: byte, src: int32, dst: int32,
                       term: uint64, lastTerm: uint64, lastIdx: uint64, commit: uint64, size: int32)

  function ParseHead(bs: seq<byte>): Parsed<Head> {
    match ParseU8(bs) case Fail => Fail case Ok(marker, b1) =>
    match ParseU8(b1) case Fail => Fail case Ok(kind, b2) =>
    match ParseI32(b2) case Fail => Fail case Ok(src, b3) =>
    match ParseI32(b3) case Fail => Fail case Ok(dst, b4) =>
    match ParseU64(b4) case Fail => Fail case Ok(term, b5) =>
    match ParseU64(b5) case Fail => Fail case Ok(lastTerm, b6) =>
    match ParseU64(b6) case Fail => Fail case Ok(lastIdx, b7) =>
    match ParseU64(b7) case Fail => Fail case Ok(commit, b8) =>
    match ParseI32(b8) case Fail => Fail case Ok(size, rest) =>
      Ok(Head(marker, kind, src, dst, term, lastTerm, lastIdx, commit, size), rest)
  }

  /** All checks of the receiving side: header CRC, marker, size, message CRC, entry sizes and entry CRCs. */
  function Decode(bs: seq<byte>): Parsed<(Request, seq<byte>)> {
    match Take(FIELDS, bs) case Fail => Fail case Ok(fields, b1) =>
    match ParseCrc(b1) case Fail => Fail case Ok(crc, b2) =>
    match ParseU32(b2) case Fail => Fail case Ok(flags, b3) =>
    match ParseHead(fields) case Fail => Fail case Ok(h, _) =>
      var entire := Has(flags, CRC_ON_ENTIRE_MESSAGE);
      if !entire && Crc(fields, 0) != crc then Fail
      else if h.marker == 1 || h.size < 0 || h.size > MAX_DATA then Fail
      else
        match Take(h.size, b3) case Fail => Fail case Ok(data, rest) =>
          if entire && Crc(data, Crc(fields, 0)) != crc then Fail
          else
            match ParseData(flags, data) case Fail => Fail case Ok(body, _) =>
              Ok((Request(h.kind, h.src, h.dst, h.term, h.lastTerm, h.lastIdx, h.commit, body.1), body.0), rest)
  }

  // ----- round trip

  /** What arrives of an entry: time stamp and CRC only if their flag is on. */
  function Carried(o: Options, e: LogEntry): LogEntry {
    e.(timestamp := if o.timestamps then e.timestamp else 0,
       hasCrc := o.payloadCrc && e.hasCrc,
       crc := if o.payloadCrc then e.crc else 0)
  }

  function CarriedAll(o: Options, entries: seq<LogEntry>): seq<LogEntry> {
    if entries == [] then [] else [Carried(o, entries[0])] + CarriedAll(o, entries[1..])
  }

  /** The stored CRC is that of the payload, where it is sent. */
  predicate Consistent(o: Options, e: LogEntry) {
    o.payloadCrc && e.hasCrc ==> e.crc == Crc(e.payload, 0)
  }

  predicate AllConsistent(o: Options, entries: seq<LogEntry>) {
    forall i :: 0 <= i < |entries| ==> Consistent(o, entries[i])
  }

  lemma StampBack(o: Options, e: LogEntry, rest: seq<byte>)
    requires EntryFits(e)
    ensures ParseStamp(o.timestamps, PutStamp(o, e) + rest) ==
            Ok(if o.timestamps then e.timestamp else 0, rest)
  {
    hide ParseU64, PutLE;
    if o.timestamps {
      assert PutLE(8, e.timestamp) == PutU64(e.timestamp);
      U64Back(e.timestamp, rest);
    } else {
      assert [] + rest == rest;
    }
  }

  lemma ParseCrcBack(c: bv32, rest: seq<byte>)
    ensures ParseCrc(PutCrc(c) + rest) == Ok(c, rest)
  {
    hide Word, PutCrc, Take;
    TakeBack(PutCrc(c), rest);
    CrcBack(c);
  }

  lemma EntryCrcBack(o: Options, e: LogEntry, rest: seq<byte>)
    ensures ParseEntryCrc(o.payloadCrc, PutEntryCrc(o, e) + rest) ==
            Ok((o.payloadCrc && e.hasCrc, if o.payloadCrc then e.crc else 0), rest)
  {
    hide ParseCrc, PutCrc;
    if o.payloadCrc {
      assert [PutBool(e.hasCrc)] + PutCrc(e.crc) + rest == [PutBool(e.hasCrc)] + (PutCrc(e.crc) + rest);
      U8Back(PutBool(e.hasCrc), PutCrc(e.crc) + rest);
      ParseCrcBack(e.crc, rest);
    } else {
      assert [] + rest == rest;
    }
  }

  lemma ValueBack(v: seq<byte>, rest: seq<byte>)
    requires |v| < 0x8000_0000
    ensures ParseValue(PutSized(v) + rest) == Ok(v, rest)
  {
    hide ParseI32, PutLE, Take;
    assert PutLE(4, |v|) == PutI32(|v|);
    assert PutSized(v) + rest == PutI32(|v|) + (v + rest);
    I32Back(|v|, v + rest);
    TakeBack(v, rest);
  }

  /** An entry comes back exactly when its CRC is right; otherwise the message is refused. */
  lemma EntryBack(o: Options, e: LogEntry, rest: seq<byte>)
    requires EntryFits(e) && |e.payload| < 0x8000_0000
    ensures ParseEntry(o.timestamps, o.payloadCrc, PutEntry(o, e) + rest) ==
            if Consistent(o, e) then Ok(Carried(o, e), rest) else Fail
  {
    hide ParseU64, ParseU8, ParseStamp, ParseEntryCrc, ParseValue, Crc, PutLE, PutStamp, PutEntryCrc, PutSized;
    var b4 := PutSized(e.payload) + rest;
    var b3 := PutEntryCrc(o, e) + b4;
    var b2 := PutStamp(o, e) + b3;
    var b1 := [e.valType] + b2;
    assert PutEntry(o, e) + rest == PutLE(8, e.term) + b1;
    assert PutLE(8, e.term) == PutU64(e.term);
    U64Back(e.term, b1);
    U8Back(e.valType, b2);
    StampBack(o, e, b3);
    EntryCrcBack(o, e, b4);
    ValueBack(e.payload, rest);
  }

  lemma EntryLength(o: Options, e: LogEntry)
    ensures |PutEntry(o, e)| == EntrySize(o.timestamps, o.payloadCrc) + |e.payload|
  {
    hide PutCrc;
  }

  lemma {:induction false} EntriesBack(o: Options, entries: seq<LogEntry>)
    requires EntriesFit(entries) && |PutEntries(o, entries)| < 0x8000_0000
    ensures ParseEntries(o.timestamps, o.payloadCrc, PutEntries(o, entries)) ==
            if AllConsistent(o, entries) then Ok(CarriedAll(o, entries), []) else Fail
    decreases |entries|
  {
    hide PutEntry, ParseEntry, Consistent;
    if entries == [] {
    } else {
      var rest := PutEntries(o, entries[1..]);
      EntryLength(o, entries[0]);
      EntryBack(o, entries[0], rest);
      EntriesBack(o, entries[1..]);
      assert AllConsistent(o, entries) <==> Consistent(o, entries[0]) && AllConsistent(o, entries[1..]) by {
        assert Consistent(o, entries[0]) && AllConsistent(o, entries[1..]) ==>
          forall i :: 0 < i < |entries| ==> entries[i] == entries[1..][i - 1];
        assert forall i :: 0 <= i < |entries| - 1 ==> entries[1..][i] == entries[i + 1];
      }
    }
  }

  lemma HeadBack(r: Request, size: nat)
    requires size < 0x8000_0000
    ensures ParseHead(PutFields(r, size)) ==
            Ok(Head(0, r.kind, r.src, r.dst, r.term, r.lastTerm, r.lastIdx, r.commit, size), [])
  {
    hide ParseU64, ParseI32, ParseU8, PutI32, PutU64;
    var b8 := PutI32(size) + [];
    var b7 := PutU64(r.commit) + b8;
    var b6 := PutU64(r.lastIdx) + b7;
    var b5 := PutU64(r.lastTerm) + b6;
    var b4 := PutU64(r.term) + b5;
    var b3 := PutI32(r.dst) + b4;
    var b2 := PutI32(r.src) + b3;
    var b1 := [r.kind] + b2;
    assert PutFields(r, size) == [0] + b1;
    U8Back(0, b1);
    U8Back(r.kind, b2);
    I32Back(r.src, b3);
    I32Back(r.dst, b4);
    U64Back(r.term, b5);
    U64Back(r.lastTerm, b6);
    U64Back(r.lastIdx, b7);
    U64Back(r.commit, b8);
    I32Back(size, []);
  }

  lemma DataBack(o: Options, r: Request, meta: seq<byte>)
    requires EntriesFit(r.entries) && |Payload(o, r, meta)| < 0x8000_0000
    ensures ParseData(Flags(o, meta), Payload(o, r, meta)) ==
            if AllConsistent(o, r.entries) then Ok((meta, CarriedAll(o, r.entries)), []) else Fail
  {
    hide PutEntry, ParseEntries, Consistent, ParseSized, PutSized;
    FlagsBack(o, meta);
    EntriesBack(o, r.entries);
    var entries := PutEntries(o, r.entries);
    MetaBack(meta, entries);
    if Payload(o, r, meta) == [] {
      NoData(o, r, meta);
    }
  }

  lemma MetaBack(meta: seq<byte>, rest: seq<byte>)
    requires |PutMeta(meta)| < 0x8000_0000
    ensures ParseMeta(meta != [], PutMeta(meta) + rest) == Ok(meta, rest)
  {
    hide ParseSized;
    if meta == [] {
      assert PutMeta(meta) + rest == rest;
    } else {
      SizedBack(meta, rest);
    }
  }

  lemma NoData(o: Options, r: Request, meta: seq<byte>)
    requires Payload(o, r, meta) == []
    ensures meta == [] && r.entries == []
  {
    EntriesTakeSpace(o, r.entries);
  }

  lemma {:induction false} EntriesTakeSpace(o: Options, entries: seq<LogEntry>)
    ensures |entries| <= |PutEntries(o, entries)|
    decreases |entries|
  {
    hide PutEntry;
    if entries == [] {
    } else {
      EntryLength(o, entries[0]);
      EntriesTakeSpace(o, entries[1..]);
    }
  }

  lemma SplitMessage(o: Options, r: Request, meta: seq<byte>)
    requires |Payload(o, r, meta)| < 0x8000_0000
    ensures var payload := Payload(o, r, meta);
            var fields := PutFields(r, |payload|);
            var crc := MessageCrc(o.entireCrc, fields, payload);
            var b3 := payload + [];
            var b2 := PutLE(4, Flags(o, meta)) + b3;
            var b1 := PutCrc(crc) + b2;
            && Encode(o, r, meta) == fields + b1
            && Take(FIELDS, fields + b1) == Ok(fields, b1)
            && ParseCrc(b1) == Ok(crc, b2)
            && ParseU32(b2) == Ok(Flags(o, meta), b3)
            && Take(|payload|, b3) == Ok(payload, [])
  {
    hide Payload, PutFields, MessageCrc, PutCrc, PutLE, ParseCrc, ParseU32, Take;
    var payload := Payload(o, r, meta);
    var fields := PutFields(r, |payload|);
    var crc := MessageCrc(o.entireCrc, fields, payload);
    var b3 := payload + [];
    var b2 := PutLE(4, Flags(o, meta)) + b3;
    var b1 := PutCrc(crc) + b2;
    FlagsBack(o, meta);
    TakeBack(fields, b1);
    ParseCrcBack(crc, b2);
    U32Back(Flags(o, meta), b3);
    TakeBack(payload, []);
    assert Encode(o, r, meta) == fields + b1;
  }

  /**
   Decoding an encoded request gives back header fields, meta string and entries exactly when
   the data part is within 1 GB and every CRC that is sent is right; otherwise it is refused.
   */
  lemma RequestRoundTripIff(o: Options, r: Request, meta: seq<byte>)
    requires EntriesFit(r.entries) && |Payload(o, r, meta)| < 0x8000_0000
    ensures Decode(Encode(o, r, meta)) ==
            if |Payload(o, r, meta)| <= 0x4000_0000 && AllConsistent(o, r.entries)
            then Ok((r.(entries := CarriedAll(o, r.entries)), meta), [])
            else Fail
  {
    hide Payload, PutFields, PutCrc, PutLE, ParseCrc, ParseU32, Take, Encode, Flags, Has, ParseHead, ParseData, Crc,
         AllConsistent;
    SplitMessage(o, r, meta);
    FlagsBack(o, meta);
    HeadBack(r, |Payload(o, r, meta)|);
    DataBack(o, r, meta);
  }

  /** With every option on, nothing is lost. */
  lemma FullRoundTrip(r: Request, meta: seq<byte>, entire: bool)
    requires EntriesFit(r.entries)
    requires |Payload(Options(true, true, entire), r, meta)| <= MAX_DATA
    requires AllConsistent(Options(true, true, entire), r.entries)
    ensures Decode(Encode(Options(true, true, entire), r, meta)) == Ok((r, meta), [])
  {
    hide Payload, Encode, Decode, AllConsistent;
    RequestRoundTripIff(Options(true, true, entire), r, meta);
    CarriesAll(Options(true, true, entire), r.entries);
  }

  lemma {:induction false} CarriesAll(o: Options, entries: seq<LogEntry>)
    requires o.timestamps && o.payloadCrc
    ensures CarriedAll(o, entries) == entries
  {
    if entries == [] {
    } else {
      CarriesAll(o, entries[1..]);
      assert entries == [entries[0]] + entries[1..];
    }
  }
}
