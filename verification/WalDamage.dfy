/** What the recovery scan makes of damage: of bytes behind whole records that are not the next record. */
module WalDamage {
  import opened Integers
  import opened Options
  import opened LeBytes
  import opened WalCodec
  import opened WalScan
  import opened WalDirectory
  import opened Recovery

  /** The bytes do not begin with the record of that LSN. */
  predicate Damaged(f: Format, rest: seq<Byte>, lsn: nat) {
    rest != [] && (f.decode(rest).Decoded? ==> f.decode(rest).lsn != lsn)
  }

  /** A record of another LSN is never cut away; anything else is, where cutting is allowed. */
  function DamageVerdict(f: Format, rest: seq<Byte>, offset: nat, trimmable: bool): Verdict {
    if rest == [] then Clean
    else match f.decode(rest)
      case Decoded(_, _, _) => Failed(LsnDiscontinuity)
      case CrcMismatch => if trimmable then CutAt(offset) else Failed(ChecksumMismatch)
      case Truncated => if trimmable then CutAt(offset) else Failed(SegmentCorrupted)
      case Malformed => if trimmable then CutAt(offset) else Failed(SegmentCorrupted)
  }

  lemma FirstBeforeRest(f: SoundFormat, first: nat, records: seq<WalRecord>, rest: seq<Byte>)
    requires records != [] && records[0].Encodable() && records[0].BodyBytes() <= f.limit && first <= U64_MAX
    ensures var tail, size := EncodeAll(f, first, records) + rest, |f.encode(first, records[0])|;
            && f.decode(tail) == Decoded(first, records[0], size) && 0 < size <= |tail|
            && tail[size..] == EncodeAll(f, first + 1, records[1..]) + rest
            && |EncodeAll(f, first, records)| == size + |EncodeAll(f, first + 1, records[1..])|
  {
    var head, more := f.encode(first, records[0]), EncodeAll(f, first + 1, records[1..]) + rest;
    assert EncodeAll(f, first, records) + rest == head + more;
    assert f.decode(head + more) == Decoded(first, records[0], |head|);
    assert (head + more)[|head|..] == more;
  }

  function ReadingOf(f: Format, first: nat, records: seq<WalRecord>, rest: seq<Byte>, offset: nat, trimmable: bool): FileScan {
    ScanTail(f, EncodeAll(f, first, records) + rest, offset, first, trimmable)
  }

  function ExpectedOf(f: Format, first: nat, records: seq<WalRecord>, rest: seq<Byte>, offset: nat, trimmable: bool): FileScan {
    FileScan(Numbered(first, records), first + |records|, DamageVerdict(f, rest, offset + |EncodeAll(f, first, records)|, trimmable))
  }

  lemma ReadsOneMore(f: SoundFormat, first: nat, records: seq<WalRecord>, rest: seq<Byte>, offset: nat, trimmable: bool)
    requires records != [] && records[0].Encodable() && records[0].BodyBytes() <= f.limit && first < U64_MAX
    ensures ReadingOf(f, first, records, rest, offset, trimmable) ==
            ReadingOf(f, first + 1, records[1..], rest, offset + |f.encode(first, records[0])|, trimmable).After([Scanned(first, records[0])])
  {
    FirstBeforeRest(f, first, records, rest);
  }

  lemma ExpectsOneMore(f: Format, first: nat, records: seq<WalRecord>, rest: seq<Byte>, offset: nat, trimmable: bool)
    requires records != []
    ensures ExpectedOf(f, first, records, rest, offset, trimmable) ==
            ExpectedOf(f, first + 1, records[1..], rest, offset + |f.encode(first, records[0])|, trimmable).After([Scanned(first, records[0])])
  {
    assert Numbered(first, records) == [Scanned(first, records[0])] + Numbered(first + 1, records[1..]);
  }

  ghost function AsExpected(f: Format, rest: seq<Byte>, trimmable: bool): (nat, seq<WalRecord>, nat) -> bool {
    (first: nat, records: seq<WalRecord>, offset: nat) => ReadingOf(f, first, records, rest, offset, trimmable) == ExpectedOf(f, first, records, rest, offset, trimmable)
  }

  lemma OneMoreAsExpected(f: SoundFormat, first: nat, records: seq<WalRecord>, rest: seq<Byte>, offset: nat, trimmable: bool)
    requires records != [] && records[0].Encodable() && records[0].BodyBytes() <= f.limit && first < U64_MAX
    requires AsExpected(f, rest, trimmable)(first + 1, records[1..], offset + |f.encode(first, records[0])|)
    ensures AsExpected(f, rest, trimmable)(first, records, offset)
  {
    ReadsOneMore(f, first, records, rest, offset, trimmable);
    ExpectsOneMore(f, first, records, rest, offset, trimmable);
  }

  lemma NoneAsExpected(f: SoundFormat, first: nat, rest: seq<Byte>, offset: nat, trimmable: bool)
    requires rest == [] || Damaged(f, rest, first)
    ensures AsExpected(f, rest, trimmable)(first, [], offset)
  {
    assert EncodeAll(f, first, []) + rest == rest;
  }

  lemma {:induction false} DamageAsExpected(f: SoundFormat, first: nat, records: seq<WalRecord>, rest: seq<Byte>, offset: nat, trimmable: bool)
    requires AllEncodable(records) && AllFit(records, f.limit) && first + |records| <= U64_MAX
    requires rest == [] || Damaged(f, rest, first + |records|)
    ensures AsExpected(f, rest, trimmable)(first, records, offset)
    decreases |records|
  {
    if records == [] {
      NoneAsExpected(f, first, rest, offset, trimmable);
    } else {
      DamageAsExpected(f, first + 1, records[1..], rest, offset + |f.encode(first, records[0])|, trimmable);
      OneMoreAsExpected(f, first, records, rest, offset, trimmable);
    }
  }

  /** Behind the records in front of the damage the scan stops, and says where and why. */
  lemma ScanTailOfDamage(f: SoundFormat, first: nat, records: seq<WalRecord>, rest: seq<Byte>, offset: nat, trimmable: bool)
    requires AllEncodable(records) && AllFit(records, f.limit) && first + |records| <= U64_MAX
    requires rest == [] || Damaged(f, rest, first + |records|)
    ensures ReadingOf(f, first, records, rest, offset, trimmable) == ExpectedOf(f, first, records, rest, offset, trimmable)
  {
    DamageAsExpected(f, first, records, rest, offset, trimmable);
  }

  /** A segment of whole records with damage behind them. */
  lemma ScanFileOfDamage(f: SoundFormat, file: SegmentFile, records: seq<WalRecord>, rest: seq<Byte>, trim: bool)
    requires AllEncodable(records) && AllFit(records, f.limit) && 0 < file.first && file.first + |records| <= U64_MAX
    requires rest == [] || Damaged(f, rest, file.first + |records|)
    requires file.bytes == SegmentBytes(f, file.first, records) + rest
    ensures ScanFile(f, file, file.first, trim) ==
            FileScan(Numbered(file.first, records), file.first + |records|,
                     DamageVerdict(f, rest, |SegmentBytes(f, file.first, records)|, file.active && trim))
  {
    var first, all := file.first, EncodeAll(f, file.first, records);
    assert file.bytes == f.header(first) + (all + rest);
    assert f.headerLsn(f.header(first) + (all + rest)) == first;
    assert file.bytes[SEGMENT_HEADER_BYTES..] == all + rest;
    ScanTailOfDamage(f, first, records, rest, SEGMENT_HEADER_BYTES, file.active && trim);
  }

  // ---- Damage in a directory ----

  /** The entry is the segment after the closed ones: whole records, then other bytes. */
  predicate Next(f: Format, dir: Dir, e: Entry, first: nat, active: bool, records: seq<WalRecord>, rest: seq<Byte>) {
    FileOf(dir, e) == SegmentFile(first, active, SegmentBytes(f, first, records) + rest)
  }

  /** All the records that the log has in front of the damage can be read. */
  ghost function Legible(f: Format): (seq<WalRecord>, nat) -> bool {
    (records: seq<WalRecord>, first: nat) => AllEncodable(records) && AllFit(records, f.limit) && 0 < first && first + |records| <= U64_MAX
  }

  ghost predicate InFront(f: Format, dir: Dir, closed: seq<Entry>, parts: seq<Part>, first: nat, records: seq<WalRecord>) {
    Chained(parts, first) && ClosedOnDisk(f, dir, closed, parts) && Legible(f)(RecordsOf(parts) + records, first)
  }

  lemma LegibleParts(f: SoundFormat, a: seq<WalRecord>, b: seq<WalRecord>, first: nat)
    requires Legible(f)(a + b, first)
    ensures Legible(f)(a, first) && Legible(f)(b, first + |a|)
  {
    assert forall i | 0 <= i < |a| :: (a + b)[i] == a[i];
    assert forall i | 0 <= i < |b| :: (a + b)[|a| + i] == b[i];
  }

  /** A scan with records in front. */
  function Behind(front: seq<Scanned>, scan: (FileScan, Dir)): (FileScan, Dir) {
    (scan.0.After(front), scan.1)
  }

  lemma BehindTwice(a: seq<Scanned>, b: seq<Scanned>, scan: (FileScan, Dir))
    ensures Behind(a, Behind(b, scan)) == Behind(a + b, scan)
  {
    AfterAfter(scan.0, a, b);
  }

  lemma ScanOfNext(f: Format, dir: Dir, e: Entry, more: seq<Entry>, expected: nat, trim: bool, head: FileScan)
    requires ScanFile(f, FileOf(dir, e), expected, trim) == head
    ensures ScanEntries(f, dir, [e] + more, expected, trim) ==
            if head.verdict.Failed? then (head, dir)
            else Behind(head.records, ScanEntries(f, Trimmed(dir, e, head.verdict), more, head.expected, trim))
  {
    assert ([e] + more)[0] == e && ([e] + more)[1..] == more;
  }

  /** The scan of the closed segments, then of the next one, then of what is after it. */
  function Across(f: Format, dir: Dir, e: Entry, first: nat, all: seq<WalRecord>, verdict: Verdict, more: seq<Entry>, trim: bool): (FileScan, Dir) {
    if verdict.Failed? then (FileScan(Numbered(first, all), first + |all|, verdict), dir)
    else Behind(Numbered(first, all), ScanEntries(f, Trimmed(dir, e, verdict), more, first + |all|, trim))
  }

  lemma HeadAcross(f: Format, dir: Dir, e: Entry, first: nat, a: seq<WalRecord>, b: seq<WalRecord>, verdict: Verdict, more: seq<Entry>, trim: bool)
    ensures Behind(Numbered(first, a), Across(f, dir, e, first + |a|, b, verdict, more, trim)) == Across(f, dir, e, first, a + b, verdict, more, trim)
  {
    NumberedConcat(first, a, b);
    if !verdict.Failed? {
      BehindTwice(Numbered(first, a), Numbered(first + |a|, b), ScanEntries(f, Trimmed(dir, e, verdict), more, first + |a + b|, trim));
    }
  }

  lemma NextAcross(f: SoundFormat, dir: Dir, e: Entry, first: nat, active: bool, records: seq<WalRecord>, rest: seq<Byte>, more: seq<Entry>, trim: bool)
    requires Legible(f)(records, first) && Next(f, dir, e, first, active, records, rest)
    requires rest == [] || Damaged(f, rest, first + |records|)
    ensures ScanEntries(f, dir, [e] + more, first, trim) ==
            Across(f, dir, e, first, records, DamageVerdict(f, rest, |SegmentBytes(f, first, records)|, active && trim), more, trim)
  {
    ScanFileOfDamage(f, FileOf(dir, e), records, rest, trim);
    ScanOfNext(f, dir, e, more, first, trim, ScanFile(f, FileOf(dir, e), first, trim));
  }

  lemma JoinAcross(f: SoundFormat, dir: Dir, e: Entry, first: nat, at: nat, front: seq<WalRecord>, active: bool, records: seq<WalRecord>,
                   rest: seq<Byte>, more: seq<Entry>, trim: bool)
    requires Legible(f)(front + records, first) && Next(f, dir, e, at, active, records, rest) && at == first + |front|
    requires rest == [] || Damaged(f, rest, at + |records|)
    ensures Behind(Numbered(first, front), ScanEntries(f, dir, [e] + more, at, trim)) ==
            Across(f, dir, e, first, front + records, DamageVerdict(f, rest, |SegmentBytes(f, at, records)|, active && trim), more, trim)
  {
    LegibleParts(f, front, records, first);
    NextAcross(f, dir, e, at, active, records, rest, more, trim);
    HeadAcross(f, dir, e, first, front, records, DamageVerdict(f, rest, |SegmentBytes(f, at, records)|, active && trim), more, trim);
  }

  lemma ClosedAcross(f: SoundFormat, dir: Dir, closed: seq<Entry>, parts: seq<Part>, first: nat, records: seq<WalRecord>,
                     more: seq<Entry>, trim: bool)
    requires InFront(f, dir, closed, parts, first, records)
    ensures ScanEntries(f, dir, closed + more, first, trim) ==
            Behind(Numbered(first, RecordsOf(parts)), ScanEntries(f, dir, more, EndOf(parts, first), trim))
    ensures EndOf(parts, first) == first + |RecordsOf(parts)|
  {
    LegibleParts(f, RecordsOf(parts), records, first);
    EndOfChain(parts, first);
    ScanClosedEntries(f, dir, closed, parts, first, more, trim);
  }

  lemma ScanAcrossFrom(f: SoundFormat, dir: Dir, closed: seq<Entry>, first: nat, at: nat, front: seq<WalRecord>, e: Entry, active: bool,
                       records: seq<WalRecord>, rest: seq<Byte>, more: seq<Entry>, trim: bool)
    requires ScanEntries(f, dir, closed + ([e] + more), first, trim) == Behind(Numbered(first, front), ScanEntries(f, dir, [e] + more, at, trim))
    requires Legible(f)(front + records, first) && Next(f, dir, e, at, active, records, rest) && at == first + |front|
    requires rest == [] || Damaged(f, rest, at + |records|)
    ensures ScanEntries(f, dir, closed + ([e] + more), first, trim) ==
            Across(f, dir, e, first, front + records, DamageVerdict(f, rest, |SegmentBytes(f, at, records)|, active && trim), more, trim)
  {
    JoinAcross(f, dir, e, first, at, front, active, records, rest, more, trim);
  }

  lemma ScanAcross(f: SoundFormat, dir: Dir, closed: seq<Entry>, parts: seq<Part>, first: nat, e: Entry, active: bool,
                   records: seq<WalRecord>, rest: seq<Byte>, more: seq<Entry>, trim: bool)
    requires InFront(f, dir, closed, parts, first, records) && Next(f, dir, e, EndOf(parts, first), active, records, rest)
    requires rest == [] || Damaged(f, rest, EndOf(parts, first) + |records|)
    ensures ScanEntries(f, dir, closed + ([e] + more), first, trim) ==
            Across(f, dir, e, first, RecordsOf(parts) + records,
                   DamageVerdict(f, rest, |SegmentBytes(f, EndOf(parts, first), records)|, active && trim), more, trim)
  {
    ClosedAcross(f, dir, closed, parts, first, records, [e] + more, trim);
    ScanAcrossFrom(f, dir, closed, first, EndOf(parts, first), RecordsOf(parts), e, active, records, rest, more, trim);
  }

  lemma LastAcross(f: Format, dir: Dir, e: Entry, first: nat, all: seq<WalRecord>, verdict: Verdict, trim: bool)
    ensures Across(f, dir, e, first, all, verdict, [], trim) ==
            (FileScan(Numbered(first, all), first + |all|, if verdict.Failed? then verdict else Clean),
             if verdict.Failed? then dir else Trimmed(dir, e, verdict))
  {
    assert Numbered(first, all) + [] == Numbered(first, all);
  }

  /** Damage in a closed segment is never skipped: whatever comes after it, the log is refused and left as it is. */
  lemma DamagedClosedIsRefused(f: SoundFormat, dir: Dir, closed: seq<Entry>, parts: seq<Part>, first: nat, e: Entry,
                               records: seq<WalRecord>, rest: seq<Byte>, more: seq<Entry>, trim: bool)
    requires InFront(f, dir, closed, parts, first, records) && Next(f, dir, e, EndOf(parts, first), false, records, rest)
    requires Damaged(f, rest, EndOf(parts, first) + |records|)
    ensures var (read, dir') := ScanEntries(f, dir, closed + ([e] + more), first, trim);
            && dir' == dir && read.records == Numbered(first, RecordsOf(parts) + records)
            && read.verdict == Failed(if f.decode(rest).Decoded? then LsnDiscontinuity
                                      else if f.decode(rest) == CrcMismatch then ChecksumMismatch else SegmentCorrupted)
  {
    ScanAcross(f, dir, closed, parts, first, e, false, records, rest, more, trim);
  }

  lemma ScanLast(f: SoundFormat, dir: Dir, closed: seq<Entry>, parts: seq<Part>, first: nat, active: Entry,
                 records: seq<WalRecord>, rest: seq<Byte>, trim: bool)
    requires InFront(f, dir, closed, parts, first, records) && Next(f, dir, active, EndOf(parts, first), true, records, rest)
    requires rest == [] || Damaged(f, rest, EndOf(parts, first) + |records|)
    ensures var all, verdict := RecordsOf(parts) + records, DamageVerdict(f, rest, |SegmentBytes(f, EndOf(parts, first), records)|, trim);
            ScanEntries(f, dir, closed + [active], first, trim) ==
            (FileScan(Numbered(first, all), first + |all|, if verdict.Failed? then verdict else Clean),
             if verdict.Failed? then dir else Trimmed(dir, active, verdict))
  {
    assert [active] + [] == [active];
    ScanAcross(f, dir, closed, parts, first, active, true, records, rest, [], trim);
    LastAcross(f, dir, active, first, RecordsOf(parts) + records,
               DamageVerdict(f, rest, |SegmentBytes(f, EndOf(parts, first), records)|, trim), trim);
  }

  lemma DamageIsCut(f: Format, dir: Dir, e: Entry, first: nat, bytes: seq<Byte>, rest: seq<Byte>, trim: bool)
    requires rest != [] && FileOf(dir, e) == SegmentFile(first, true, bytes + rest)
    ensures var verdict := DamageVerdict(f, rest, |bytes|, trim);
            && (!verdict.Failed? <==> trim && !f.decode(rest).Decoded?)
            && (!verdict.Failed? ==> Trimmed(dir, e, verdict) == dir[e.name := bytes])
  {
    assert (bytes + rest)[..|bytes|] == bytes;
  }

  /** Damage at the end of the active segment is cut away exactly if cutting is allowed and it does not read as a record;
      then nothing but the damage goes. */
  lemma DamagedTailIsCutIff(f: SoundFormat, dir: Dir, closed: seq<Entry>, parts: seq<Part>, first: nat, active: Entry,
                            records: seq<WalRecord>, rest: seq<Byte>, trim: bool)
    requires InFront(f, dir, closed, parts, first, records) && Next(f, dir, active, EndOf(parts, first), true, records, rest)
    requires Damaged(f, rest, EndOf(parts, first) + |records|)
    ensures var (read, dir') := ScanEntries(f, dir, closed + [active], first, trim);
            && read.records == Numbered(first, RecordsOf(parts) + records)
            && (!read.verdict.Failed? <==> trim && !f.decode(rest).Decoded?)
            && dir' == if read.verdict.Failed? then dir else dir[active.name := SegmentBytes(f, EndOf(parts, first), records)]
  {
    var bytes := SegmentBytes(f, EndOf(parts, first), records);
    ScanLast(f, dir, closed, parts, first, active, records, rest, trim);
    DamageIsCut(f, dir, active, EndOf(parts, first), bytes, rest, trim);
  }

  // ---- When a log is planned for ----

  lemma NumberedLast(first: nat, init: seq<WalRecord>, last: WalRecord)
    ensures Numbered(first, init + [last]) == Numbered(first, init) + [Scanned(first + |init|, last)]
  {
  }

  lemma AboveLast(records: seq<Scanned>, last: Scanned, included: nat)
    ensures Above(records + [last], included) == Above(records, included) + if last.lsn > included then [last] else []
  {
    assert (records + [last])[..|records|] == records;
  }

  /** The records of a legible log from `first` on that come after those a checkpoint includes. */
  function ToReplay(first: nat, records: seq<WalRecord>, included: nat): seq<Scanned>
    requires first <= included + 1
  {
    if included + 1 - first <= |records| then Numbered(included + 1, records[included + 1 - first..]) else []
  }

  lemma ToReplayLast(first: nat, init: seq<WalRecord>, last: WalRecord, included: nat)
    requires first <= included + 1
    ensures ToReplay(first, init + [last], included) ==
            ToReplay(first, init, included) + if first + |init| > included then [Scanned(first + |init|, last)] else []
  {
    var k := included + 1 - first;
    if k <= |init| {
      assert (init + [last])[k..] == init[k..] + [last];
      NumberedLast(included + 1, init[k..], last);
    }
  }

  lemma {:induction false} AboveIsToReplay(first: nat, records: seq<WalRecord>, included: nat)
    requires first <= included + 1
    ensures Above(Numbered(first, records), included) == ToReplay(first, records, included)
  {
    if records != [] {
      var init, last := records[..|records| - 1], records[|records| - 1];
      assert records == init + [last];
      AboveIsToReplay(first, init, included);
      NumberedLast(first, init, last);
      AboveLast(Numbered(first, init), Scanned(first + |init|, last), included);
      ToReplayLast(first, init, last, included);
    }
  }

  /** The log starts with the header of its first LSN; a scan from another one is refused at once. */
  lemma StartsAtFirst(f: SoundFormat, dir: Dir, closed: seq<Entry>, parts: seq<Part>, first: nat, active: Entry,
                      records: seq<WalRecord>, rest: seq<Byte>, trim: bool)
    requires InFront(f, dir, closed, parts, first, records) && Next(f, dir, active, EndOf(parts, first), true, records, rest)
    ensures (closed + [active])[0].segment.first == first
    ensures first != 1 ==> ScanEntries(f, dir, closed + [active], 1, trim).0.verdict == Failed(LsnDiscontinuity)
  {
    var e := (closed + [active])[0];
    ghost var (held, after) := if parts == [] then (records, rest) else (parts[0].records, []);
    var tail := EncodeAll(f, first, held) + after;
    assert FileOf(dir, e).bytes == f.header(first) + tail;
    assert f.headerLsn(f.header(first) + tail) == first;
  }

  function Included(checkpoint: Option<nat>): nat {
    if checkpoint.Some? then checkpoint.value else 0
  }

  /** There is a plan exactly if the log starts no later than right after what is included, and does not end before that unless
      it is empty; then just the records after those are replayed. */
  predicate PlansAfter(plan: Plan, first: nat, all: seq<WalRecord>, included: nat) {
    && (plan.Plan? <==> included < U64_MAX && first <= included + 1 && (all == [] || included < first + |all|))
    && (plan.Plan? ==> plan == Plan(ToReplay(first, all, included), if all == [] then 0 else first + |all| - 1))
  }

  lemma PlanForIff(read: FileScan, first: nat, all: seq<WalRecord>, checkpoint: Option<nat>)
    requires read == FileScan(Numbered(first, all), first + |all|, Clean) && 0 < first && (checkpoint == None ==> first == 1) && Included(checkpoint) <= U64_MAX
    ensures PlansAfter(PlanFor(read, first, true, checkpoint), first, all, Included(checkpoint))
  {
    var included := Included(checkpoint);
    if first <= included + 1 {
      AboveIsToReplay(first, all, included);
      PlanOfRead(read, first, checkpoint, ToReplay(first, all, included));
    }
  }

  lemma PlanOfRead(read: FileScan, first: nat, checkpoint: Option<nat>, replay: seq<Scanned>)
    requires !read.verdict.Failed? && 0 < first <= read.expected && first <= Included(checkpoint) + 1 && Above(read.records, Included(checkpoint)) == replay
    ensures var last := if read.expected == first then 0 else read.expected - 1;
            var plan := PlanFor(read, first, true, checkpoint);
            && (plan.Plan? <==> (checkpoint.Some? ==> checkpoint.value != U64_MAX) && (last == 0 || Included(checkpoint) <= last))
            && (plan.Plan? ==> plan == Plan(replay, last))
  {
  }

  /** A log that is legible up to what may be cut away is planned for exactly if it joins on to what the checkpoint includes. */
  lemma LogPlanIff(f: SoundFormat, dir: Dir, closed: seq<Entry>, parts: seq<Part>, first: nat, active: Entry,
                   records: seq<WalRecord>, rest: seq<Byte>, checkpoint: Option<nat>, trim: bool)
    requires InFront(f, dir, closed, parts, first, records) && Next(f, dir, active, EndOf(parts, first), true, records, rest)
    requires rest == [] || (trim && Damaged(f, rest, EndOf(parts, first) + |records|) && !f.decode(rest).Decoded?)
    requires Included(checkpoint) <= U64_MAX
    ensures PlansAfter(PlanOf(f, dir, closed + [active], checkpoint, trim), first, RecordsOf(parts) + records, Included(checkpoint))
  {
    var all, entries := RecordsOf(parts) + records, closed + [active];
    StartsAtFirst(f, dir, closed, parts, first, active, records, rest, trim);
    if checkpoint != None || first == 1 {
      ScanLast(f, dir, closed, parts, first, active, records, rest, trim);
      var read := FileScan(Numbered(first, all), first + |all|, Clean);
      PlanForIff(read, first, all, checkpoint);
      PlanOfScan(f, dir, entries, first, checkpoint, trim, read);
    }
  }

  lemma PlanOfScan(f: Format, dir: Dir, entries: seq<Entry>, first: nat, checkpoint: Option<nat>, trim: bool, read: FileScan)
    requires entries != [] && entries[0].segment.first == first && ScanEntries(f, dir, entries, first, trim).0 == read
    requires checkpoint != None || first == 1
    ensures PlanOf(f, dir, entries, checkpoint, trim) == PlanFor(read, first, true, checkpoint)
  {
  }
}
