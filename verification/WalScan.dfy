/** Recovery: reading the segments of a log directory back, and cutting the tail of the active one. */
module WalScan {
  import opened Integers
  import opened LeBytes
  import opened WalCodec

  datatype ScanError = SegmentCorrupted | ChecksumMismatch | LsnDiscontinuity | LsnOverflow

  datatype Verdict = Clean | CutAt(offset: nat) | Failed(error: ScanError)

  datatype SegmentFile = SegmentFile(first: nat, active: bool, bytes: seq<Byte>)

  datatype Scanned = Scanned(lsn: nat, record: WalRecord)

  datatype FileScan = FileScan(records: seq<Scanned>, expected: nat, verdict: Verdict) {
    function After(earlier: seq<Scanned>): FileScan {
      this.(records := earlier + records)
    }
  }

  function FailedDecode(d: Decoded): ScanError {
    if d == CrcMismatch then ChecksumMismatch else SegmentCorrupted
  }

  /** Reading on from `offset`, with `tail` the bytes from there. */
  function ScanTail(f: Format, tail: seq<Byte>, offset: nat, expected: nat, trimmable: bool): FileScan
    decreases |tail|
  {
    if tail == [] then FileScan([], expected, Clean)
    else
      var d := f.decode(tail);
      if !d.Decoded? then FileScan([], expected, if trimmable then CutAt(offset) else Failed(FailedDecode(d)))
      else if d.lsn != expected then FileScan([], expected, Failed(LsnDiscontinuity))
      else if expected == U64_MAX then FileScan([Scanned(d.lsn, d.record)], expected, Failed(LsnOverflow))
      else ScanTail(f, tail[d.total..], offset + d.total, expected + 1, trimmable)
             .After([Scanned(d.lsn, d.record)])
  }

  function ScanFile(f: Format, file: SegmentFile, expected: nat, trim: bool): FileScan {
    var trimmable := file.active && trim;
    if file.bytes == [] then FileScan([], expected, if file.active then Clean else Failed(SegmentCorrupted))
    else if |file.bytes| < SEGMENT_HEADER_BYTES || f.headerLsn(file.bytes) == 0 then FileScan([], expected, if trimmable then CutAt(0) else Failed(SegmentCorrupted))
    else if f.headerLsn(file.bytes) != expected then FileScan([], expected, Failed(LsnDiscontinuity))
    else ScanTail(f, file.bytes[SEGMENT_HEADER_BYTES..], SEGMENT_HEADER_BYTES, expected, trimmable)
  }

  /** A file after its scan: cut where the verdict says. */
  function Kept(file: SegmentFile, verdict: Verdict): SegmentFile {
    if verdict.CutAt? && verdict.offset <= |file.bytes| then file.(bytes := file.bytes[..verdict.offset]) else file
  }

  lemma AfterAfter(read: FileScan, a: seq<Scanned>, b: seq<Scanned>)
    ensures read.After(b).After(a) == read.After(a + b)
  {
    assert a + (b + read.records) == (a + b) + read.records;
  }

  /** One record read moves from the tail to the records collected. */
  lemma TailStep(f: Format, tail: seq<Byte>, offset: nat, expected: nat, trimmable: bool, earlier: seq<Scanned>)
    requires f.decode(tail).Decoded? && f.decode(tail).lsn == expected && expected != U64_MAX
    ensures var d := f.decode(tail);
            && tail != []
            && ScanTail(f, tail, offset, expected, trimmable).After(earlier) ==
               ScanTail(f, tail[d.total..], offset + d.total, expected + 1, trimmable).After(earlier + [Scanned(d.lsn, d.record)])
  {
    var d := f.decode(tail);
    AfterAfter(ScanTail(f, tail[d.total..], offset + d.total, expected + 1, trimmable), earlier, [Scanned(d.lsn, d.record)]);
  }

  method ScanSegment(f: Format, file: SegmentFile, first: nat, trim: bool, earlier: seq<Scanned>)
    returns (records: seq<Scanned>, expected: nat, verdict: Verdict)
    ensures FileScan(records, expected, verdict) == ScanFile(f, file, first, trim).After(earlier)
  {
    var bytes, trimmable := file.bytes, file.active && trim;
    records, expected, verdict := earlier, first, Clean;
    if |bytes| < SEGMENT_HEADER_BYTES {
      if bytes == [] {
        verdict := if file.active then Clean else Failed(SegmentCorrupted);
      } else {
        verdict := if trimmable then CutAt(0) else Failed(SegmentCorrupted);
      }
      return;
    }
    var header := f.headerLsn(bytes);
    if header == 0 {
      verdict := if trimmable then CutAt(0) else Failed(SegmentCorrupted);
      return;
    }
    if header != expected {
      verdict := Failed(LsnDiscontinuity);
      return;
    }
    records, expected, verdict := ScanRecords(f, bytes, first, trimmable, earlier);
  }

  method ScanRecords(f: Format, bytes: seq<Byte>, first: nat, trimmable: bool, before: seq<Scanned>)
    returns (records: seq<Scanned>, expected: nat, verdict: Verdict)
    requires |bytes| >= SEGMENT_HEADER_BYTES
    ensures FileScan(records, expected, verdict) ==
            ScanTail(f, bytes[SEGMENT_HEADER_BYTES..], SEGMENT_HEADER_BYTES, first, trimmable).After(before)
  {
    records, expected, verdict := before, first, Clean;
    ghost var goal := ScanTail(f, bytes[SEGMENT_HEADER_BYTES..], SEGMENT_HEADER_BYTES, first, trimmable).After(before);
    var offset := SEGMENT_HEADER_BYTES;
    while offset < |bytes|
      invariant SEGMENT_HEADER_BYTES <= offset <= |bytes| && verdict == Clean
      invariant goal == ScanTail(f, bytes[offset..], offset, expected, trimmable).After(records)
    {
      var decoded := f.decode(bytes[offset..]);
      if !decoded.Decoded? {
        verdict := if trimmable then CutAt(offset) else Failed(FailedDecode(decoded));
        return;
      }
      if decoded.lsn != expected {
        verdict := Failed(LsnDiscontinuity);
        return;
      }
      ghost var earlier := records;
      records := records + [Scanned(decoded.lsn, decoded.record)];
      if expected == U64_MAX {
        verdict := Failed(LsnOverflow);
        return;
      }
      TailStep(f, bytes[offset..], offset, expected, trimmable, earlier);
      assert bytes[offset..][decoded.total..] == bytes[offset + decoded.total..];
      expected := expected + 1;
      offset := offset + decoded.total;
    }
  }

  // ---- What a log written record by record reads back as ----

  function EncodeAll(f: Format, first: nat, records: seq<WalRecord>): seq<Byte>
    decreases records
  {
    if records == [] then [] else f.encode(first, records[0]) + EncodeAll(f, first + 1, records[1..])
  }

  function SegmentBytes(f: Format, first: nat, records: seq<WalRecord>): seq<Byte> {
    f.header(first) + EncodeAll(f, first, records)
  }

  /** Records numbered from `first` on. */
  function Numbered(first: nat, records: seq<WalRecord>): (s: seq<Scanned>)
    ensures |s| == |records|
  {
    seq(|records|, i requires 0 <= i < |records| => Scanned(first + i, records[i]))
  }

  /** How many records come back from the first `cut` bytes: those whole within them, up to the first too large one. */
  function Readable(records: seq<WalRecord>, cut: nat, limit: nat): (n: nat)
    ensures n <= |records|
  {
    if records == [] || records[0].BodyBytes() > limit || PREFIX_BYTES + records[0].BodyBytes() > cut then 0
    else 1 + Readable(records[1..], cut - (PREFIX_BYTES + records[0].BodyBytes()), limit)
  }

  predicate AllEncodable(records: seq<WalRecord>) {
    forall i | 0 <= i < |records| :: records[i].Encodable()
  }

  predicate AllFit(records: seq<WalRecord>, limit: nat) {
    forall i | 0 <= i < |records| :: records[i].BodyBytes() <= limit
  }

  lemma NumberedFirst(first: nat, records: seq<WalRecord>, n: nat)
    requires 0 < n <= |records|
    ensures records[..n][1..] == records[1..][..n - 1]
    ensures Numbered(first, records[..n]) == [Scanned(first, records[0])] + Numbered(first + 1, records[1..][..n - 1])
  {
  }

  /** Where the last whole record before a cut ends. */
  function WholeEnd(f: Format, first: nat, records: seq<WalRecord>, cut: nat): nat {
    |EncodeAll(f, first, records[..Readable(records, cut, f.limit)])|
  }

  /** What the records of a segment cut to `cut` bytes should read back as: the whole ones before the cut. */
  function Expected(f: Format, first: nat, records: seq<WalRecord>, cut: nat, offset: nat, trimmable: bool): FileScan {
    var n, end := Readable(records, cut, f.limit), WholeEnd(f, first, records, cut);
    FileScan(Numbered(first, records[..n]), first + n,
             if cut == end then Clean else if trimmable then CutAt(offset + end) else Failed(SegmentCorrupted))
  }

  /** What they do read back as. */
  function Reading(f: Format, first: nat, records: seq<WalRecord>, cut: nat, offset: nat, trimmable: bool): FileScan
    requires cut <= |EncodeAll(f, first, records)|
  {
    ScanTail(f, EncodeAll(f, first, records)[..cut], offset, first, trimmable)
  }

  lemma NoneReads(f: SoundFormat, first: nat, records: seq<WalRecord>, cut: nat, offset: nat, trimmable: bool)
    requires AllEncodable(records) && first <= U64_MAX && cut <= |EncodeAll(f, first, records)|
    requires Readable(records, cut, f.limit) == 0
    ensures Reading(f, first, records, cut, offset, trimmable) == Expected(f, first, records, cut, offset, trimmable)
    ensures WholeEnd(f, first, records, cut) == 0
  {
    var tail := EncodeAll(f, first, records)[..cut];
    if cut > 0 {
      var e, rest := f.encode(first, records[0]), EncodeAll(f, first + 1, records[1..]);
      assert tail == if cut < |e| then e[..cut] else e + rest[..cut - |e|];
    }
  }

  lemma FirstSize(f: SoundFormat, first: nat, records: seq<WalRecord>, cut: nat)
    requires AllEncodable(records) && first < U64_MAX && cut <= |EncodeAll(f, first, records)| && Readable(records, cut, f.limit) > 0
    ensures var size := PREFIX_BYTES + records[0].BodyBytes();
            size == |f.encode(first, records[0])| <= cut && cut - size <= |EncodeAll(f, first + 1, records[1..])|
  {
  }

  /** The first record, whole and within the limit, is read and the rest follows. */
  lemma FirstIsRead(f: SoundFormat, first: nat, records: seq<WalRecord>, cut: nat, offset: nat, trimmable: bool, size: nat)
    requires AllEncodable(records) && first < U64_MAX && cut <= |EncodeAll(f, first, records)|
    requires Readable(records, cut, f.limit) > 0 && size == PREFIX_BYTES + records[0].BodyBytes()
    requires size == |f.encode(first, records[0])| <= cut && cut - size <= |EncodeAll(f, first + 1, records[1..])|
    ensures Reading(f, first, records, cut, offset, trimmable) ==
            Reading(f, first + 1, records[1..], cut - size, offset + size, trimmable).After([Scanned(first, records[0])])
  {
    CutAcross(f.encode(first, records[0]), EncodeAll(f, first + 1, records[1..]), cut);
  }

  lemma FirstIsExpected(f: Format, first: nat, records: seq<WalRecord>, cut: nat, offset: nat, trimmable: bool, size: nat)
    requires Readable(records, cut, f.limit) > 0 && size == PREFIX_BYTES + records[0].BodyBytes() == |f.encode(first, records[0])| <= cut
    ensures Expected(f, first, records, cut, offset, trimmable) ==
            Expected(f, first + 1, records[1..], cut - size, offset + size, trimmable).After([Scanned(first, records[0])])
    ensures WholeEnd(f, first, records, cut) == size + WholeEnd(f, first + 1, records[1..], cut - size)
  {
    NumberedFirst(first, records, Readable(records, cut, f.limit));
  }

  lemma CutAcross(a: seq<Byte>, b: seq<Byte>, cut: nat)
    requires |a| <= cut <= |a| + |b|
    ensures (a + b)[..cut] == a + b[..cut - |a|] && (a + b)[..cut][|a|..] == b[..cut - |a|]
  {
  }

  /** What the cut records read back as is what it should be, as a value. */
  ghost function Right(f: Format, trimmable: bool): (nat, seq<WalRecord>, nat, nat) -> bool {
    (first: nat, records: seq<WalRecord>, cut: nat, offset: nat) =>
      && WholeEnd(f, first, records, cut) <= cut <= |EncodeAll(f, first, records)|
      && Reading(f, first, records, cut, offset, trimmable) == Expected(f, first, records, cut, offset, trimmable)
  }

  lemma NoneRight(f: SoundFormat, first: nat, records: seq<WalRecord>, cut: nat, offset: nat, trimmable: bool)
    requires AllEncodable(records) && first <= U64_MAX && cut <= |EncodeAll(f, first, records)| && Readable(records, cut, f.limit) == 0
    ensures Right(f, trimmable)(first, records, cut, offset)
  {
    NoneReads(f, first, records, cut, offset, trimmable);
  }

  lemma OneMoreReads(f: SoundFormat, first: nat, records: seq<WalRecord>, cut: nat, offset: nat, trimmable: bool, size: nat)
    requires AllEncodable(records) && first < U64_MAX && cut <= |EncodeAll(f, first, records)|
    requires Readable(records, cut, f.limit) > 0 && size == PREFIX_BYTES + records[0].BodyBytes()
    requires size == |f.encode(first, records[0])| <= cut && cut - size <= |EncodeAll(f, first + 1, records[1..])|
    requires Right(f, trimmable)(first + 1, records[1..], cut - size, offset + size)
    ensures Right(f, trimmable)(first, records, cut, offset)
  {
    FirstIsRead(f, first, records, cut, offset, trimmable, size);
    FirstIsExpected(f, first, records, cut, offset, trimmable, size);
  }

  lemma {:induction false} CutsRead(f: SoundFormat, first: nat, records: seq<WalRecord>, cut: nat, offset: nat, trimmable: bool)
    requires AllEncodable(records) && first + |records| <= U64_MAX && cut <= |EncodeAll(f, first, records)|
    ensures Right(f, trimmable)(first, records, cut, offset)
    decreases |records|
  {
    if Readable(records, cut, f.limit) == 0 {
      NoneRight(f, first, records, cut, offset, trimmable);
    } else {
      var size := PREFIX_BYTES + records[0].BodyBytes();
      FirstSize(f, first, records, cut);
      CutsRead(f, first + 1, records[1..], cut - size, offset + size, trimmable);
      OneMoreReads(f, first, records, cut, offset, trimmable, size);
    }
  }

  /** Any cut through the records of a segment reads back as the whole records before it. */
  lemma ScanTailOfCut(f: SoundFormat, first: nat, records: seq<WalRecord>, cut: nat, offset: nat, trimmable: bool)
    requires AllEncodable(records) && first + |records| <= U64_MAX && cut <= |EncodeAll(f, first, records)|
    ensures Reading(f, first, records, cut, offset, trimmable) == Expected(f, first, records, cut, offset, trimmable)
    ensures WholeEnd(f, first, records, cut) <= cut
  {
    CutsRead(f, first, records, cut, offset, trimmable);
  }

  /** How many records come back from a segment cut to `cut` bytes. */
  function Surviving(records: seq<WalRecord>, cut: nat, limit: nat): (n: nat)
    ensures n <= |records|
  {
    if cut < SEGMENT_HEADER_BYTES then 0 else Readable(records, cut - SEGMENT_HEADER_BYTES, limit)
  }

  /** An active segment cut anywhere: below the header nothing of it remains, above it the whole records before the cut. */
  lemma ScanFileOfCut(f: SoundFormat, first: nat, records: seq<WalRecord>, cut: nat)
    requires AllEncodable(records) && 0 < first && first + |records| <= U64_MAX
    requires cut <= |SegmentBytes(f, first, records)|
    ensures var file, n := SegmentFile(first, true, SegmentBytes(f, first, records)[..cut]), Surviving(records, cut, f.limit);
            var read := ScanFile(f, file, first, true);
            && read == FileScan(Numbered(first, records[..n]), first + n, read.verdict) && !read.verdict.Failed?
            && Kept(file, read.verdict).bytes == if cut < SEGMENT_HEADER_BYTES then [] else SegmentBytes(f, first, records[..n])
  {
    if cut >= SEGMENT_HEADER_BYTES {
      ScanBehindHeader(f, first, records, cut);
      KeptBehindHeader(f, first, records, cut, ScanFile(f, SegmentFile(first, true, SegmentBytes(f, first, records)[..cut]), first, true).verdict);
    } else {
      assert records[..0] == [];
    }
  }

  lemma HeaderIsWhole(f: SoundFormat, first: nat, records: seq<WalRecord>, cut: nat)
    requires 0 < first <= U64_MAX && SEGMENT_HEADER_BYTES <= cut <= |SegmentBytes(f, first, records)|
    ensures var bytes := SegmentBytes(f, first, records)[..cut];
            && f.headerLsn(bytes) == first && cut - SEGMENT_HEADER_BYTES <= |EncodeAll(f, first, records)|
            && bytes[SEGMENT_HEADER_BYTES..] == EncodeAll(f, first, records)[..cut - SEGMENT_HEADER_BYTES]
  {
    var bytes := SegmentBytes(f, first, records)[..cut];
    assert bytes == f.header(first) + bytes[SEGMENT_HEADER_BYTES..];
  }

  lemma ScanBehindHeader(f: SoundFormat, first: nat, records: seq<WalRecord>, cut: nat)
    requires AllEncodable(records) && 0 < first && first + |records| <= U64_MAX
    requires SEGMENT_HEADER_BYTES <= cut <= |SegmentBytes(f, first, records)|
    ensures var file, n := SegmentFile(first, true, SegmentBytes(f, first, records)[..cut]), Surviving(records, cut, f.limit);
            var end := WholeEnd(f, first, records, cut - SEGMENT_HEADER_BYTES);
            && ScanFile(f, file, first, true) ==
               FileScan(Numbered(first, records[..n]), first + n,
                        if cut - SEGMENT_HEADER_BYTES == end then Clean else CutAt(SEGMENT_HEADER_BYTES + end))
            && end <= cut - SEGMENT_HEADER_BYTES
  {
    HeaderIsWhole(f, first, records, cut);
    ScanTailOfCut(f, first, records, cut - SEGMENT_HEADER_BYTES, SEGMENT_HEADER_BYTES, true);
  }

  lemma KeptBehindHeader(f: SoundFormat, first: nat, records: seq<WalRecord>, cut: nat, verdict: Verdict)
    requires SEGMENT_HEADER_BYTES <= cut <= |SegmentBytes(f, first, records)|
    requires var end := WholeEnd(f, first, records, cut - SEGMENT_HEADER_BYTES);
             && end <= cut - SEGMENT_HEADER_BYTES
             && verdict == if cut - SEGMENT_HEADER_BYTES == end then Clean else CutAt(SEGMENT_HEADER_BYTES + end)
    ensures Kept(SegmentFile(first, true, SegmentBytes(f, first, records)[..cut]), verdict).bytes ==
            SegmentBytes(f, first, records[..Surviving(records, cut, f.limit)])
  {
    var n, end := Readable(records, cut - SEGMENT_HEADER_BYTES, f.limit), WholeEnd(f, first, records, cut - SEGMENT_HEADER_BYTES);
    EncodePrefix(f, first, records, n);
    assert SegmentBytes(f, first, records)[..SEGMENT_HEADER_BYTES + end] == SegmentBytes(f, first, records[..n]);
    assert SegmentBytes(f, first, records)[..cut][..SEGMENT_HEADER_BYTES + end] == SegmentBytes(f, first, records[..n]);
  }

  lemma {:induction false} EncodePrefix(f: Format, first: nat, records: seq<WalRecord>, n: nat)
    requires n <= |records|
    ensures EncodeAll(f, first, records[..n]) <= EncodeAll(f, first, records)
    decreases n
  {
    if n > 0 {
      EncodePrefix(f, first + 1, records[1..], n - 1);
      assert records[..n][1..] == records[1..][..n - 1];
    }
  }

  lemma {:induction false} EncodeAppend(f: Format, first: nat, records: seq<WalRecord>, r: WalRecord)
    ensures EncodeAll(f, first, records + [r]) == EncodeAll(f, first, records) + f.encode(first + |records|, r)
    decreases records
  {
    if records == [] {
      assert [r][1..] == [];
    } else {
      EncodeAppend(f, first + 1, records[1..], r);
      assert (records + [r])[1..] == records[1..] + [r];
    }
  }

  /** Of records that all fit, a cut past the encoding of the first `k` keeps at least those. */
  lemma {:induction false} ReadablePast(f: SoundFormat, first: nat, records: seq<WalRecord>, k: nat, cut: nat)
    requires k <= |records| && AllFit(records, f.limit) && |EncodeAll(f, first, records[..k])| <= cut
    ensures Readable(records, cut, f.limit) >= k
    decreases k
  {
    if k > 0 {
      assert records[..k][1..] == records[1..][..k - 1];
      ReadablePast(f, first + 1, records[1..], k - 1, cut - (PREFIX_BYTES + records[0].BodyBytes()));
    }
  }

  /** The whole of what was written is read back exactly if every record's body is within the limit. */
  lemma {:induction false} AllReadBackIff(f: SoundFormat, first: nat, records: seq<WalRecord>)
    ensures Readable(records, |EncodeAll(f, first, records)|, f.limit) == |records| <==> AllFit(records, f.limit)
    decreases records
  {
    if records != [] {
      AllReadBackIff(f, first + 1, records[1..]);
      assert records == [records[0]] + records[1..];
    }
  }
}
