/**
 What the receiving side refuses: messages that were changed on the way inside four consecutive
 bytes, wherever the CRC covers them, and messages with another CRC.
 */
module RpcDamage {
  import opened LogEntries
  import opened Codec
  import opened Crc32
  import opened Rpc

  /** A header, its CRC and flags, and a data part. */
  function Sealed(fields: seq<byte>, crc: seq<byte>, flags: nat, data: seq<byte>): seq<byte> {
    fields + crc + PutLE(4, flags) + data
  }

  /** Two messages of one length that differ, and only from `at` on for four bytes. */
  ghost predicate DiffersAt(m: seq<byte>, m': seq<byte>, at: nat) {
    |m| == |m'| && m != m' && forall k :: 0 <= k < |m| && m[k] != m'[k] ==> at <= k < at + 4
  }

  /** What surrounds the change is the same in both. */
  lemma DamageParts(m: seq<byte>, m': seq<byte>, at: nat) returns (end: nat)
    requires DiffersAt(m, m', at)
    ensures at <= end <= |m| && end <= at + 4
    ensures m[..at] == m'[..at] && m[end..] == m'[end..] && m[at..end] != m'[at..end]
  {
    var k :| 0 <= k < |m| && m[k] != m'[k];
    end := if at + 4 <= |m| then at + 4 else |m|;
    assert m[at..end][k - at] == m[k] && m'[at..end][k - at] == m'[k];
  }

  lemma Pieces(m: seq<byte>, at: nat, end: nat)
    requires at <= end <= |m|
    ensures m == m[..at] + m[at..end] + m[end..]
  {
  }

  lemma DamageChangesCrc(m: seq<byte>, m': seq<byte>, at: nat, prev: bv32)
    requires DiffersAt(m, m', at)
    ensures Crc(m, prev) != Crc(m', prev)
  {
    hide Crc;
    var end := DamageParts(m, m', at);
    Pieces(m, at, end);
    Pieces(m', at, end);
    hide DiffersAt;
    BurstDetected(m[..at], m[at..end], m'[at..end], m[end..], prev);
  }

  // ----- what an accepted message tells

  /** The last four bytes of the header fields. */
  function SizeField(fields: seq<byte>): int32
    requires |fields| == FIELDS
  {
    assert Take(4, fields[42..]).Ok?;
    ParseI32(fields[42..]).value
  }

  lemma TakeDrops(n: nat, bs: seq<byte>)
    requires n <= |bs|
    ensures Take(n, bs).Ok? && Take(n, bs).rest == bs[n..]
  {
  }

  lemma Drop(bs: seq<byte>, i: nat, n: nat)
    requires i + n <= |bs|
    ensures bs[i..][n..] == bs[i + n..]
  {
  }

  lemma I32Drops(bs: seq<byte>, i: nat)
    requires i + 4 <= |bs|
    ensures ParseI32(bs[i..]).Ok? && ParseI32(bs[i..]).rest == bs[i + 4..]
  {
    hide GetLE;
    TakeDrops(4, bs[i..]);
    Drop(bs, i, 4);
  }

  lemma U64Drops(bs: seq<byte>, i: nat)
    requires i + 8 <= |bs|
    ensures ParseU64(bs[i..]).Ok? && ParseU64(bs[i..]).rest == bs[i + 8..]
  {
    hide GetLE;
    TakeDrops(8, bs[i..]);
    Drop(bs, i, 8);
  }

  /** Any 46 bytes are header fields, and the size is the last of them. */
  lemma HeadSize(fields: seq<byte>)
    requires |fields| == FIELDS
    ensures ParseHead(fields).Ok? && ParseHead(fields).value.size == SizeField(fields)
  {
    hide ParseI32, ParseU64;
    assert fields[1..][1..] == fields[2..];
    I32Drops(fields, 2);
    I32Drops(fields, 6);
    U64Drops(fields, 10);
    U64Drops(fields, 18);
    U64Drops(fields, 26);
    U64Drops(fields, 34);
    I32Drops(fields, 42);
  }

  lemma SealedParts(fields: seq<byte>, crc: seq<byte>, flags: nat, data: seq<byte>)
    requires |fields| == FIELDS && |crc| == 4 && flags < 0x1_0000_0000
    ensures var b2 := PutLE(4, flags) + data;
            && Sealed(fields, crc, flags, data) == fields + (crc + b2)
            && Take(FIELDS, fields + (crc + b2)) == Ok(fields, crc + b2)
            && ParseCrc(crc + b2) == Ok(Word(crc), b2)
            && ParseU32(b2) == Ok(flags, data)
  {
    hide Word, PutLE, ParseU32, Take;
    var b2 := PutLE(4, flags) + data;
    assert Sealed(fields, crc, flags, data) == fields + (crc + b2);
    TakeBack(fields, crc + b2);
    TakeBack(crc, b2);
    U32Back(flags, data);
  }

  /** A message that is accepted has the CRC of its header, or of header and data, in its CRC field. */
  lemma AcceptedCrc(fields: seq<byte>, crc: seq<byte>, flags: nat, data: seq<byte>)
    requires |fields| == FIELDS && |crc| == 4 && flags < 0x1_0000_0000
    requires Decode(Sealed(fields, crc, flags, data)).Ok?
    ensures 0 <= SizeField(fields) <= |data|
    ensures Word(crc) == MessageCrc(Has(flags, CRC_ON_ENTIRE_MESSAGE), fields, data[..SizeField(fields)])
  {
    hide Take, ParseCrc, ParseU32, ParseHead, ParseData, Has, Crc, Sealed, Word, PutLE, SizeField;
    SealedParts(fields, crc, flags, data);
    HeadSize(fields);
    TakesSize(SizeField(fields), data);
  }

  lemma TakesSize(n: int, data: seq<byte>)
    ensures n >= 0 ==> Take(n, data) == if n <= |data| then Ok(data[..n], data[n..]) else Fail
  {
  }

  /** The parts of an encoded request. */
  lemma EncodeIsSealed(o: Options, r: Request, meta: seq<byte>)
    requires |Payload(o, r, meta)| < 0x8000_0000
    ensures var payload := Payload(o, r, meta);
            var fields := PutFields(r, |payload|);
            && Encode(o, r, meta)
               == Sealed(fields, PutCrc(MessageCrc(o.entireCrc, fields, payload)), Flags(o, meta), payload)
            && SizeField(fields) == |payload|
  {
    hide Payload, PutFields, MessageCrc, PutCrc, PutLE, Flags, SizeField;
    var payload := Payload(o, r, meta);
    HeadBack(r, |payload|);
    HeadSize(PutFields(r, |payload|));
  }

  // ----- damage

  /** Without the whole-message option, a header changed inside four consecutive bytes is refused. */
  lemma HeaderDamageRefused(o: Options, r: Request, meta: seq<byte>, fields: seq<byte>, at: nat)
    requires |Payload(o, r, meta)| < 0x8000_0000 && !o.entireCrc
    requires DiffersAt(Encode(o, r, meta)[..FIELDS], fields, at)
    ensures Decode(fields + Encode(o, r, meta)[FIELDS..]).Fail?
  {
    hide Payload, PutFields, PutCrc, PutLE, Flags, Decode, Crc, DiffersAt, Has, SizeField;
    var payload := Payload(o, r, meta);
    var sent := PutFields(r, |payload|);
    var crc := MessageCrc(o.entireCrc, sent, payload);
    EncodeIsSealed(o, r, meta);
    FlagsBack(o, meta);
    CrcBack(crc);
    assert Encode(o, r, meta)[..FIELDS] == sent;
    SameLength(sent, fields, at);
    DamageChangesCrc(sent, fields, at, 0);
    assert fields + Encode(o, r, meta)[FIELDS..] == Sealed(fields, PutCrc(crc), Flags(o, meta), payload);
    if Decode(Sealed(fields, PutCrc(crc), Flags(o, meta), payload)).Ok? {
      AcceptedCrc(fields, PutCrc(crc), Flags(o, meta), payload);
    }
  }

  lemma SameLength(m: seq<byte>, m': seq<byte>, at: nat)
    requires DiffersAt(m, m', at)
    ensures |m| == |m'|
  {
  }

  /** With the option on, so is a change of fields or data that leaves the size field alone. */
  lemma MessageDamageRefused(o: Options, r: Request, meta: seq<byte>, covered: seq<byte>, at: nat)
    requires |Payload(o, r, meta)| < 0x8000_0000 && o.entireCrc
    requires DiffersAt(Encode(o, r, meta)[..FIELDS] + Encode(o, r, meta)[HEADER..], covered, at)
    requires covered[42..46] == Encode(o, r, meta)[42..46]
    ensures Decode(covered[..FIELDS] + Encode(o, r, meta)[FIELDS..HEADER] + covered[FIELDS..]).Fail?
  {
    hide Payload, PutFields, PutCrc, PutLE, Flags, Decode, Crc, DiffersAt, Has, SizeField;
    var payload := Payload(o, r, meta);
    var sent := PutFields(r, |payload|);
    var crc := MessageCrc(o.entireCrc, sent, payload);
    EncodeIsSealed(o, r, meta);
    FlagsBack(o, meta);
    CrcBack(crc);
    assert Encode(o, r, meta)[..FIELDS] == sent && Encode(o, r, meta)[HEADER..] == payload;
    SameLength(sent + payload, covered, at);
    var (fields, data) := (covered[..FIELDS], covered[FIELDS..]);
    DamageChangesCrc(sent + payload, covered, at, 0);
    CrcChains(sent, payload, 0);
    assert covered == fields + data && data[..|data|] == data;
    CrcChains(fields, data, 0);
    SameSize(sent, fields);
    assert covered[..FIELDS] + Encode(o, r, meta)[FIELDS..HEADER] + covered[FIELDS..]
        == Sealed(fields, PutCrc(crc), Flags(o, meta), data);
    if Decode(Sealed(fields, PutCrc(crc), Flags(o, meta), data)).Ok? {
      AcceptedCrc(fields, PutCrc(crc), Flags(o, meta), data);
    }
  }

  lemma SameSize(a: seq<byte>, b: seq<byte>)
    requires |a| == |b| == FIELDS && a[42..46] == b[42..46]
    ensures SizeField(a) == SizeField(b)
  {
    assert a[42..] == a[42..46] && b[42..] == b[42..46];
  }

  /** Another CRC is refused in either case. */
  lemma CrcDamageRefused(o: Options, r: Request, meta: seq<byte>, crc: seq<byte>)
    requires |Payload(o, r, meta)| < 0x8000_0000
    requires |crc| == 4 && crc != Encode(o, r, meta)[FIELDS..FIELDS + 4]
    ensures Decode(Encode(o, r, meta)[..FIELDS] + crc + Encode(o, r, meta)[FIELDS + 4..]).Fail?
  {
    hide Payload, PutFields, PutCrc, PutLE, Flags, Decode, Crc, Has, SizeField, Word;
    var payload := Payload(o, r, meta);
    var sent := PutFields(r, |payload|);
    var sum := MessageCrc(o.entireCrc, sent, payload);
    EncodeIsSealed(o, r, meta);
    FlagsBack(o, meta);
    CrcBack(sum);
    assert Encode(o, r, meta)[FIELDS..FIELDS + 4] == PutCrc(sum) && payload[..|payload|] == payload;
    assert Encode(o, r, meta)[..FIELDS] + crc + Encode(o, r, meta)[FIELDS + 4..]
        == Sealed(sent, crc, Flags(o, meta), payload);
    if Decode(Sealed(sent, crc, Flags(o, meta), payload)).Ok? {
      AcceptedCrc(sent, crc, Flags(o, meta), payload);
      WordInjective(crc, PutCrc(sum));
    }
  }

  /** An entry whose payload was changed inside four consecutive bytes is refused by the CRC it carries. */
  lemma PayloadDamageRefused(o: Options, e: LogEntry, payload: seq<byte>, at: nat, rest: seq<byte>)
    requires EntryFits(e) && |e.payload| < 0x8000_0000
    requires o.payloadCrc && e.hasCrc && e.crc == Crc(e.payload, 0)
    requires DiffersAt(e.payload, payload, at)
    ensures ParseEntry(o.timestamps, o.payloadCrc, PutEntry(o, e.(payload := payload)) + rest).Fail?
  {
    hide ParseEntry, PutEntry, Crc;
    DamageChangesCrc(e.payload, payload, at, 0);
    EntryBack(o, e.(payload := payload), rest);
  }
}
