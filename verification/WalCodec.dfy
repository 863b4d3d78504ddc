/** The bytes of log records and segment headers, and the names of segment files. */
module WalCodec {
  import opened Integers
  import opened LeBytes

  const SEGMENT_MAGIC: seq<Byte> := [0x47, 0x57, 0x4C, 0x53]
  const SEGMENT_VERSION := 1
  const RECORD_VERSION := 1
  const SEGMENT_HEADER_BYTES := 16
  const PREFIX_BYTES := 4
  const FIXED_BYTES := 24
  const CRC_BYTES := 4

  /** CRC32C is a parameter. */
  type Crc = seq<Byte> -> nat

  datatype WalRecord = WalRecord(kind: nat, tick: nat, payload: seq<Byte>) {
    predicate Encodable() {
      kind < 0x1_0000 && tick < 0x1_0000_0000_0000_0000 && BodyBytes() < 0x1_0000_0000
    }

    /** What the length prefix counts: the fixed header, the payload and the CRC. */
    function BodyBytes(): nat {
      FIXED_BYTES + |payload| + CRC_BYTES
    }
  }


  function CrcField(crc: Crc, covered: seq<Byte>): seq<Byte> {
    Le(4, crc(covered) % 0x1_0000_0000)
  }

  function FixedHeader(lsn: nat, r: WalRecord): (s: seq<Byte>)
    ensures |s| == FIXED_BYTES
  {
    Le(2, RECORD_VERSION) + Le(2, r.kind) + Le(8, lsn) + Le(8, r.tick) + Le(4, |r.payload|)
  }

  function Encode(crc: Crc, lsn: nat, r: WalRecord): (s: seq<Byte>)
    ensures |s| == PREFIX_BYTES + r.BodyBytes()
  {
    Le(4, r.BodyBytes()) + FixedHeader(lsn, r) + r.payload + CrcField(crc, FixedHeader(lsn, r) + r.payload)
  }

  datatype Decoded = Truncated | Malformed | CrcMismatch | Decoded(lsn: nat, record: WalRecord, total: nat)

  function Field(buffer: seq<Byte>, at: nat, n: nat): nat
    requires at + n <= |buffer|
  {
    Value(buffer[at..at + n])
  }

  function Decode(crc: Crc, buffer: seq<Byte>, maxRecordBytes: nat): Decoded {
    if |buffer| < PREFIX_BYTES then Truncated
    else
      var body := Field(buffer, 0, 4);
      if body < FIXED_BYTES + CRC_BYTES || body > maxRecordBytes then Malformed
      else if |buffer| < PREFIX_BYTES + body then Truncated
      else if Field(buffer, 4, 2) != RECORD_VERSION then Malformed
      else if Field(buffer, 24, 4) != body - FIXED_BYTES - CRC_BYTES then Malformed
      else if buffer[body..body + 4] != CrcField(crc, buffer[4..body]) then CrcMismatch
      else Decoded(Field(buffer, 8, 8), WalRecord(Field(buffer, 6, 2), Field(buffer, 16, 8), buffer[28..body]), PREFIX_BYTES + body)
  }

  function SegmentHeader(firstLsn: nat): (s: seq<Byte>)
    ensures |s| == SEGMENT_HEADER_BYTES
  {
    SEGMENT_MAGIC + Le(4, SEGMENT_VERSION) + Le(8, firstLsn)
  }

  /** The first LSN in a segment header; zero if there is no valid header. */
  function HeaderLsn(buffer: seq<Byte>): nat {
    if |buffer| < SEGMENT_HEADER_BYTES || buffer[..4] != SEGMENT_MAGIC || Field(buffer, 4, 4) != SEGMENT_VERSION then 0
    else Field(buffer, 8, 8)
  }

  lemma FieldsOfEncoding(crc: Crc, lsn: nat, r: WalRecord, rest: seq<Byte>)
    requires r.Encodable() && lsn <= U64_MAX
    ensures var b, body := Encode(crc, lsn, r) + rest, r.BodyBytes();
            && b[..4] == Le(4, body) && b[4..28] == FixedHeader(lsn, r)
            && b[4..body] == FixedHeader(lsn, r) + r.payload && b[28..body] == r.payload
            && b[body..body + 4] == CrcField(crc, FixedHeader(lsn, r) + r.payload)
            && b[4..6] == Le(2, RECORD_VERSION) && b[6..8] == Le(2, r.kind) && b[8..16] == Le(8, lsn)
            && b[16..24] == Le(8, r.tick) && b[24..28] == Le(4, |r.payload|)
  {
    var b, h := Encode(crc, lsn, r) + rest, FixedHeader(lsn, r);
    assert b[4..28] == h;
    assert b[4..6] == h[..2] && b[6..8] == h[2..4] && b[8..16] == h[4..12] && b[16..24] == h[12..20] && b[24..28] == h[20..24];
  }

  /** An encoded record is read back if its body is within the limit, and is malformed otherwise. */
  lemma DecodeOfEncode(crc: Crc, lsn: nat, r: WalRecord, rest: seq<Byte>, maxRecordBytes: nat)
    requires r.Encodable() && lsn <= U64_MAX
    ensures Decode(crc, Encode(crc, lsn, r) + rest, maxRecordBytes) ==
            if r.BodyBytes() <= maxRecordBytes then Decoded(lsn, r, |Encode(crc, lsn, r)|) else Malformed
  {
    FieldsOfEncoding(crc, lsn, r, rest);
    Limits();
    ValueOfLe(4, r.BodyBytes());
    ValueOfLe(2, RECORD_VERSION);
    ValueOfLe(2, r.kind);
    ValueOfLe(8, lsn);
    ValueOfLe(8, r.tick);
    ValueOfLe(4, |r.payload|);
  }

  /** A record cut short is never read, whatever bytes are missing. */
  lemma DecodeOfCut(crc: Crc, lsn: nat, r: WalRecord, k: nat, maxRecordBytes: nat)
    requires r.Encodable() && lsn <= U64_MAX && k < |Encode(crc, lsn, r)|
    ensures Decode(crc, Encode(crc, lsn, r)[..k], maxRecordBytes) ==
            if k < PREFIX_BYTES || r.BodyBytes() <= maxRecordBytes then Truncated else Malformed
  {
    var b := Encode(crc, lsn, r)[..k];
    if k >= PREFIX_BYTES {
      assert b[0..4] == Le(4, r.BodyBytes());
      Limits();
      ValueOfLe(4, r.BodyBytes());
    }
  }

  lemma FieldIsLe(buffer: seq<Byte>, at: nat, n: nat)
    requires at + n <= |buffer|
    ensures buffer[at..at + n] == Le(n, Field(buffer, at, n)) && Field(buffer, at, n) < Limit(n)
  {
    LeOfValue(buffer[at..at + n]);
  }

  lemma FixedFields(buffer: seq<Byte>)
    requires |buffer| >= 28
    ensures buffer[4..28] == Le(2, Field(buffer, 4, 2)) + Le(2, Field(buffer, 6, 2)) + Le(8, Field(buffer, 8, 8)) +
                             Le(8, Field(buffer, 16, 8)) + Le(4, Field(buffer, 24, 4))
  {
    FieldIsLe(buffer, 4, 2);
    FieldIsLe(buffer, 6, 2);
    FieldIsLe(buffer, 8, 8);
    FieldIsLe(buffer, 16, 8);
    FieldIsLe(buffer, 24, 4);
  }

  /** What is read is within the ranges of the fields. */
  lemma DecodedInRange(crc: Crc, buffer: seq<Byte>, maxRecordBytes: nat)
    requires Decode(crc, buffer, maxRecordBytes).Decoded?
    ensures var d := Decode(crc, buffer, maxRecordBytes);
            && d.record.Encodable() && d.lsn <= U64_MAX && d.record.BodyBytes() == Field(buffer, 0, 4) <= maxRecordBytes
            && d.total <= |buffer|
  {
    Limits();
    FieldIsLe(buffer, 0, 4);
    FieldIsLe(buffer, 6, 2);
    FieldIsLe(buffer, 8, 8);
    FieldIsLe(buffer, 16, 8);
  }

  lemma Recomposed(buffer: seq<Byte>, body: nat)
    requires 28 <= body && body + 4 <= |buffer|
    ensures buffer[4..body] == buffer[4..28] + buffer[28..body]
    ensures buffer[..body + 4] == buffer[0..4] + buffer[4..28] + buffer[28..body] + buffer[body..body + 4]
  {
  }

  lemma DecodedHeader(crc: Crc, buffer: seq<Byte>, maxRecordBytes: nat)
    requires Decode(crc, buffer, maxRecordBytes).Decoded?
    ensures var d, body := Decode(crc, buffer, maxRecordBytes), Field(buffer, 0, 4);
            && 28 <= body && d.total == PREFIX_BYTES + body <= |buffer|
            && buffer[4..28] == FixedHeader(d.lsn, d.record) && buffer[28..body] == d.record.payload
            && buffer[body..body + 4] == CrcField(crc, buffer[4..body])
  {
    FixedFields(buffer);
  }

  /** Whatever is read was encoded: the bytes taken are exactly the encoding of the record returned. */
  lemma EncodeOfDecode(crc: Crc, buffer: seq<Byte>, maxRecordBytes: nat)
    requires Decode(crc, buffer, maxRecordBytes).Decoded?
    ensures var d := Decode(crc, buffer, maxRecordBytes);
            && d.record.Encodable() && d.lsn <= U64_MAX && d.record.BodyBytes() <= maxRecordBytes && d.total <= |buffer|
            && buffer[..d.total] == Encode(crc, d.lsn, d.record)
  {
    DecodedInRange(crc, buffer, maxRecordBytes);
    DecodedHeader(crc, buffer, maxRecordBytes);
    var body := Field(buffer, 0, 4);
    Recomposed(buffer, body);
    FieldIsLe(buffer, 0, 4);
  }

  /** A buffer has the header LSN `n` exactly if it starts with the header written for `n`. */
  lemma HeaderLsnIff(buffer: seq<Byte>, firstLsn: nat)
    requires 0 < firstLsn <= U64_MAX
    ensures HeaderLsn(buffer) == firstLsn <==> |buffer| >= SEGMENT_HEADER_BYTES && buffer[..16] == SegmentHeader(firstLsn)
  {
    Limits();
    ValueOfLe(4, SEGMENT_VERSION);
    ValueOfLe(8, firstLsn);
    if |buffer| >= SEGMENT_HEADER_BYTES {
      assert buffer[..16] == buffer[..4] + buffer[4..8] + buffer[8..16];
      LeOfValue(buffer[4..8]);
      LeOfValue(buffer[8..16]);
      assert |buffer[4..8]| == 4 && |buffer[8..16]| == 8;
      if buffer[..16] == SegmentHeader(firstLsn) {
        assert buffer[..4] == SegmentHeader(firstLsn)[..4] && buffer[4..8] == SegmentHeader(firstLsn)[4..8]
               && buffer[8..16] == SegmentHeader(firstLsn)[8..16];
      }
    }
  }

  // ---- The format as a value, for the code that only reads and writes whole records ----

  /** Reads a record off the front of a buffer; what is read has some length within it. */
  type Decoder = d: seq<Byte> -> Decoded | forall b :: d(b).Decoded? ==> 0 < d(b).total <= |b| witness ((b: seq<Byte>) => Truncated)

  datatype Format = Format(
    encode: (nat, WalRecord) -> seq<Byte>, decode: Decoder, header: nat -> seq<Byte>, headerLsn: seq<Byte> -> nat, limit: nat)
  {
    /** Records within the limit are read back, larger ones and cut ones never; headers are read back. */
    ghost predicate Sound() {
      SizesRight() && ReadsRecords() && RefusesCuts() && ReadsHeaders()
    }

    ghost predicate SizesRight() {
      && (forall lsn: nat, r: WalRecord :: |encode(lsn, r)| == PREFIX_BYTES + r.BodyBytes())
      && (forall lsn: nat :: |header(lsn)| == SEGMENT_HEADER_BYTES)
    }

    ghost predicate ReadsRecords() {
      forall lsn: nat, r: WalRecord, rest: seq<Byte> {:trigger decode(encode(lsn, r) + rest)} | r.Encodable() && lsn <= U64_MAX ::
        decode(encode(lsn, r) + rest) == if r.BodyBytes() <= limit then Decoded(lsn, r, |encode(lsn, r)|) else Malformed
    }

    ghost predicate RefusesCuts() {
      forall lsn: nat, r: WalRecord, k: nat {:trigger decode(encode(lsn, r)[..k])} |
        r.Encodable() && lsn <= U64_MAX && k < |encode(lsn, r)| ::
        decode(encode(lsn, r)[..k]) == Truncated || decode(encode(lsn, r)[..k]) == Malformed
    }

    ghost predicate ReadsHeaders() {
      forall lsn: nat, rest: seq<Byte> {:trigger headerLsn(header(lsn) + rest)} | 0 < lsn <= U64_MAX ::
        headerLsn(header(lsn) + rest) == lsn
    }
  }

  function WalFormat(crc: Crc, maxRecordBytes: nat): Format {
    DecodeTakes(crc, maxRecordBytes);
    Format((lsn: nat, r: WalRecord) => Encode(crc, lsn, r), (b: seq<Byte>) => Decode(crc, b, maxRecordBytes),
           SegmentHeader, HeaderLsn, maxRecordBytes)
  }

  lemma DecodeTakes(crc: Crc, maxRecordBytes: nat)
    ensures forall b :: Decode(crc, b, maxRecordBytes).Decoded? ==> 0 < Decode(crc, b, maxRecordBytes).total <= |b|
  {
  }

  lemma HeaderIsRead(lsn: nat, rest: seq<Byte>)
    requires 0 < lsn <= U64_MAX
    ensures HeaderLsn(SegmentHeader(lsn) + rest) == lsn
  {
    assert (SegmentHeader(lsn) + rest)[..16] == SegmentHeader(lsn);
    HeaderLsnIff(SegmentHeader(lsn) + rest, lsn);
  }

  lemma WalFormatReads(crc: Crc, maxRecordBytes: nat)
    ensures WalFormat(crc, maxRecordBytes).ReadsRecords()
  {
    forall lsn: nat, r: WalRecord, rest: seq<Byte> | r.Encodable() && lsn <= U64_MAX
      ensures Decode(crc, Encode(crc, lsn, r) + rest, maxRecordBytes) ==
              if r.BodyBytes() <= maxRecordBytes then Decoded(lsn, r, |Encode(crc, lsn, r)|) else Malformed
    {
      DecodeOfEncode(crc, lsn, r, rest, maxRecordBytes);
    }
  }

  lemma WalFormatRefuses(crc: Crc, maxRecordBytes: nat)
    ensures WalFormat(crc, maxRecordBytes).RefusesCuts()
  {
    forall lsn: nat, r: WalRecord, k: nat | r.Encodable() && lsn <= U64_MAX && k < |Encode(crc, lsn, r)|
      ensures var d := Decode(crc, Encode(crc, lsn, r)[..k], maxRecordBytes); d == Truncated || d == Malformed
    {
      DecodeOfCut(crc, lsn, r, k, maxRecordBytes);
    }
  }

  /** The format of the log files is sound, whatever the checksum. */
  lemma WalFormatIsSound(crc: Crc, maxRecordBytes: nat)
    ensures WalFormat(crc, maxRecordBytes).Sound()
  {
    WalFormatReads(crc, maxRecordBytes);
    WalFormatRefuses(crc, maxRecordBytes);
    forall lsn: nat, rest: seq<Byte> | 0 < lsn <= U64_MAX
      ensures HeaderLsn(SegmentHeader(lsn) + rest) == lsn
    {
      HeaderIsRead(lsn, rest);
    }
    assert WalFormat(crc, maxRecordBytes).ReadsHeaders();
  }

  /** A format that reads back what it writes. */
  type SoundFormat = f: Format | f.Sound()
    ghost witness (WalFormatIsSound((b: seq<Byte>) => 0, 0); WalFormat((b: seq<Byte>) => 0, 0))

  /** Fills a buffer field by field. */
  method EncodeRecord(crc: Crc, lsn: nat, r: WalRecord) returns (out: array<Byte>)
    requires r.Encodable()
    ensures fresh(out) && out[..] == Encode(crc, lsn, r)
  {
    var body := r.BodyBytes();
    out := new Byte[PREFIX_BYTES + body](i => 0);
    WriteHeader(out, lsn, r);
    ghost var head := out[..28];
    for i := 0 to |r.payload|
      invariant out[..28] == head && out[28..28 + i] == r.payload[..i]
    {
      ghost var done := out[28..28 + i];
      out[28 + i] := r.payload[i];
      assert out[28..28 + i + 1] == done + [r.payload[i]];
    }
    assert out[4..body] == head[4..] + out[28..body];
    var sum := crc(out[4..body]) % 0x1_0000_0000;
    ghost var filled := out[..body];
    WriteLe(out, body, 4, sum);
    assert out[..] == filled + out[body..body + 4];
    assert filled == head + r.payload;
  }

  method WriteHeader(out: array<Byte>, lsn: nat, r: WalRecord)
    requires out.Length >= 28
    modifies out
    ensures out[..28] == Le(4, r.BodyBytes()) + FixedHeader(lsn, r)
    ensures out[4..28] == FixedHeader(lsn, r)
  {
    WriteLe(out, 24, 4, |r.payload|);
    ghost var d := out[24..28];
    WriteLe(out, 16, 8, r.tick);
    ghost var c := out[16..28];
    assert c == Le(8, r.tick) + d by { assert out[24..] [..4] == d; }
    WriteLe(out, 8, 8, lsn);
    ghost var b := out[8..28];
    assert b == Le(8, lsn) + c by { assert out[16..][..12] == c; }
    WriteLe(out, 6, 2, r.kind);
    ghost var a := out[6..28];
    assert a == Le(2, r.kind) + b by { assert out[8..][..20] == b; }
    WriteLe(out, 4, 2, RECORD_VERSION);
    ghost var v := out[4..28];
    assert v == Le(2, RECORD_VERSION) + a by { assert out[6..][..22] == a; }
    WriteLe(out, 0, 4, r.BodyBytes());
    assert out[4..28] == v by { assert out[4..][..24] == v; }
    assert v == FixedHeader(lsn, r);
  }
}
