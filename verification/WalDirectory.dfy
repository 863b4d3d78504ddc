/** Scanning a whole log directory: which entries are segments, their order, and what they hold together. */
module WalDirectory {
  import opened Integers
  import opened LeBytes
  import opened WalCodec
  import opened SegmentNames
  import opened WalScan
  import opened Sorting
  import opened TextOrder

  /** File contents by name. */
  type Dir = map<string, seq<Byte>>

  datatype Entry = Entry(name: string, segment: SegmentName)

  /** Closed segments come first, each kind in LSN order. */
  predicate Earlier(a: Entry, b: Entry) {
    if a.segment.active != b.segment.active then !a.segment.active
    else a.segment.first < b.segment.first || (a.segment.first == b.segment.first && NameLe(a.name, b.name))
  }

  lemma EntriesOrdered()
    ensures TotalOrder(Earlier) && forall x, y :: Earlier(x, y) && Earlier(y, x) ==> x == y
  {
    forall x, y
      ensures Earlier(x, y) || Earlier(y, x)
      ensures Earlier(x, y) && Earlier(y, x) ==> x == y
    {
      LexOrdered(CharLess, x.name, y.name, "");
    }
    forall x, y, z | Earlier(x, y) && Earlier(y, z)
      ensures Earlier(x, z)
    {
      LexOrdered(CharLess, x.name, y.name, z.name);
    }
  }

  /** The segments among the listed names. */
  function Segments(listing: seq<string>): seq<Entry> {
    if listing == [] then []
    else
      var name := listing[|listing| - 1];
      Segments(listing[..|listing| - 1]) + if Classified(name).first > 0 then [Entry(name, Classified(name))] else []
  }

  /** The names among those listed that are recognised as segments. */
  function Named(listing: seq<string>): seq<string> {
    if listing == [] then []
    else
      var name := listing[|listing| - 1];
      Named(listing[..|listing| - 1]) + if Classified(name).first > 0 then [name] else []
  }

  function NamesOf(entries: seq<Entry>): seq<string> {
    if entries == [] then [] else NamesOf(entries[..|entries| - 1]) + [entries[|entries| - 1].name]
  }

  /** Every entry has the name that its segment is given. */
  predicate WellNamed(entries: seq<Entry>) {
    forall i | 0 <= i < |entries| ::
      0 < entries[i].segment.first <= U64_MAX && entries[i].name == entries[i].segment.Text()
  }

  lemma {:induction false} SegmentsCount(listing: seq<string>, e: Entry)
    ensures multiset(Segments(listing))[e] ==
            if e.segment == Classified(e.name) then multiset(Named(listing))[e.name] else 0
  {
    if listing != [] {
      SegmentsCount(listing[..|listing| - 1], e);
    }
  }

  lemma {:induction false} EntriesCount(entries: seq<Entry>, e: Entry)
    requires WellNamed(entries)
    ensures multiset(entries)[e] == if e.segment == Classified(e.name) then multiset(NamesOf(entries))[e.name] else 0
  {
    if entries != [] {
      var init, last := entries[..|entries| - 1], entries[|entries| - 1];
      EntriesCount(init, e);
      ClassifiedText(last.segment, "");
      assert entries == init + [last];
    }
  }

  /** A directory that lists the names of some segments, beside names that are none, is read as those segments. */
  lemma NamesTellSegments(listing: seq<string>, entries: seq<Entry>)
    requires WellNamed(entries) && multiset(Named(listing)) == multiset(NamesOf(entries))
    ensures multiset(Segments(listing)) == multiset(entries)
  {
    forall e
      ensures multiset(Segments(listing))[e] == multiset(entries)[e]
    {
      SegmentsCount(listing, e);
      EntriesCount(entries, e);
    }
  }

  function FileOf(dir: Dir, e: Entry): SegmentFile {
    SegmentFile(e.segment.first, e.segment.active, if e.name in dir then dir[e.name] else [])
  }

  /** The scan of a list of entries, and the directory it leaves: only cut tails are written back. */
  function ScanEntries(f: Format, dir: Dir, entries: seq<Entry>, expected: nat, trim: bool): (FileScan, Dir)
    decreases |entries|
  {
    if entries == [] then (FileScan([], expected, Clean), dir)
    else
      var head := ScanFile(f, FileOf(dir, entries[0]), expected, trim);
      if head.verdict.Failed? then (head, dir)
      else
        var rest := ScanEntries(f, Trimmed(dir, entries[0], head.verdict), entries[1..], head.expected, trim);
        (rest.0.After(head.records), rest.1)
  }

  function Trimmed(dir: Dir, e: Entry, verdict: Verdict): Dir {
    if verdict.CutAt? then dir[e.name := Kept(FileOf(dir, e), verdict).bytes] else dir
  }

  /** An unset first LSN is discovered from the first segment. */
  function ScanStart(entries: seq<Entry>, firstExpected: nat): nat {
    if firstExpected == 0 && entries != [] then entries[0].segment.first else firstExpected
  }

  function ScanDirectory(f: Format, dir: Dir, listing: seq<string>, firstExpected: nat, trim: bool): (FileScan, Dir) {
    var entries := SortBy(Earlier, Segments(listing));
    ScanEntries(f, dir, entries, ScanStart(entries, firstExpected), trim)
  }

  method ScanWalDirectory(f: Format, dir: Dir, listing: seq<string>, firstExpected: nat, trim: bool)
    returns (read: FileScan, dir': Dir)
    ensures (read, dir') == ScanDirectory(f, dir, listing, firstExpected, trim)
  {
    var segments: seq<Entry> := [];
    for i := 0 to |listing|
      invariant segments == Segments(listing[..i])
    {
      assert listing[..i + 1][..i] == listing[..i];
      var segment := Classified(listing[i]);
      if segment.first > 0 {
        segments := segments + [Entry(listing[i], segment)];
      }
    }
    assert listing[..|listing|] == listing;
    segments := SortBy(Earlier, segments);
    read, dir' := ScanSorted(f, dir, segments, ScanStart(segments, firstExpected), trim);
  }

  /** One segment scanned moves from the list to the records collected. */
  lemma EntryStep(f: Format, dir: Dir, entries: seq<Entry>, expected: nat, trim: bool, earlier: seq<Scanned>)
    requires entries != []
    ensures var head := ScanFile(f, FileOf(dir, entries[0]), expected, trim);
            var goal := ScanEntries(f, dir, entries, expected, trim);
            if head.verdict.Failed? then goal.0.After(earlier) == head.After(earlier) && goal.1 == dir
            else
              var rest := ScanEntries(f, Trimmed(dir, entries[0], head.verdict), entries[1..], head.expected, trim);
              goal.0.After(earlier) == rest.0.After(earlier + head.records) && goal.1 == rest.1
  {
    var head := ScanFile(f, FileOf(dir, entries[0]), expected, trim);
    if !head.verdict.Failed? {
      var rest := ScanEntries(f, Trimmed(dir, entries[0], head.verdict), entries[1..], head.expected, trim);
      AfterAfter(rest.0, earlier, head.records);
    }
  }

  lemma ScanSingle(f: Format, dir: Dir, e: Entry, expected: nat)
    requires !ScanFile(f, FileOf(dir, e), expected, true).verdict.Failed?
    ensures var head := ScanFile(f, FileOf(dir, e), expected, true);
            ScanEntries(f, dir, [e], expected, true) == (FileScan(head.records, head.expected, Clean), Trimmed(dir, e, head.verdict))
  {
    var head := ScanFile(f, FileOf(dir, e), expected, true);
    assert [e][1..] == [];
    assert head.records + [] == head.records;
  }

  method ScanSorted(f: Format, dir: Dir, segments: seq<Entry>, first: nat, trim: bool)
    returns (read: FileScan, dir': Dir)
    ensures (read, dir') == ScanEntries(f, dir, segments, first, trim)
  {
    read, dir' := FileScan([], first, Clean), dir;
    ghost var goal := ScanEntries(f, dir, segments, first, trim);
    assert segments[0..] == segments && goal.0.After([]) == goal.0;
    for i := 0 to |segments|
      invariant read.verdict == Clean
      invariant var rest := ScanEntries(f, dir', segments[i..], read.expected, trim);
                goal == (rest.0.After(read.records), rest.1)
    {
      EntryStep(f, dir', segments[i..], read.expected, trim, read.records);
      assert segments[i..][1..] == segments[i + 1..];
      var records, expected, verdict := ScanSegment(f, FileOf(dir', segments[i]), read.expected, trim, read.records);
      if verdict.Failed? {
        return FileScan(records, expected, verdict), dir';
      }
      dir' := Trimmed(dir', segments[i], verdict);
      read := FileScan(records, expected, Clean);
    }
    assert segments[|segments|..] == [] && read.records + [] == read.records;
  }

  // ---- A log laid out in segments ----

  datatype Part = Part(first: nat, records: seq<WalRecord>) {
    function Next(): nat {
      first + |records|
    }

    function ToEntry(active: bool): Entry {
      Entry(SegmentName(first, active).Text(), SegmentName(first, active))
    }
  }

  /** The parts follow one another from LSN `first` on. */
  predicate Chained(parts: seq<Part>, first: nat) {
    parts == [] || (parts[0].first == first && parts[0].records != [] && Chained(parts[1..], parts[0].Next()))
  }

  function EndOf(parts: seq<Part>, first: nat): nat {
    if parts == [] then first else EndOf(parts[1..], parts[0].Next())
  }

  function RecordsOf(parts: seq<Part>): seq<WalRecord> {
    if parts == [] then [] else parts[0].records + RecordsOf(parts[1..])
  }

  function ClosedEntries(parts: seq<Part>): seq<Entry> {
    if parts == [] then [] else [parts[0].ToEntry(false)] + ClosedEntries(parts[1..])
  }

  /** The entries are closed segments with exactly the bytes of the parts. */
  ghost predicate ClosedOnDisk(f: Format, dir: Dir, entries: seq<Entry>, parts: seq<Part>) {
    |entries| == |parts|
    && forall i | 0 <= i < |parts| ::
         FileOf(dir, entries[i]) == SegmentFile(parts[i].first, false, SegmentBytes(f, parts[i].first, parts[i].records))
  }

  lemma ScanClosedFile(f: SoundFormat, file: SegmentFile, p: Part, trim: bool)
    requires file == SegmentFile(p.first, false, SegmentBytes(f, p.first, p.records)) && 0 < p.first && p.Next() <= U64_MAX
    requires AllEncodable(p.records) && AllFit(p.records, f.limit)
    ensures ScanFile(f, file, p.first, trim) == FileScan(Numbered(p.first, p.records), p.Next(), Clean)
  {
    var all := EncodeAll(f, p.first, p.records);
    assert file.bytes[16..] == all && all[..|all|] == all;
    AllReadBackIff(f, p.first, p.records);
    ScanTailOfCut(f, p.first, p.records, |all|, SEGMENT_HEADER_BYTES, false);
    assert p.records[..|p.records|] == p.records;
  }

  /** What scanning the entries of `parts` before `more` gives, from the scan `rest` of `more`. */
  ghost predicate ScannedBefore(f: Format, dir: Dir, all: seq<Entry>, first: nat, records: seq<WalRecord>, trim: bool,
                                rest: (FileScan, Dir))
  {
    ScanEntries(f, dir, all, first, trim) == (rest.0.After(Numbered(first, records)), rest.1)
  }

  lemma ScannedOneMore(f: Format, dir: Dir, entries: seq<Entry>, more: seq<Entry>, p: Part, records: seq<WalRecord>, trim: bool,
                       rest: (FileScan, Dir))
    requires entries != [] && ScannedBefore(f, dir, entries[1..] + more, p.Next(), records, trim, rest)
    requires ScanFile(f, FileOf(dir, entries[0]), p.first, trim) == FileScan(Numbered(p.first, p.records), p.Next(), Clean)
    ensures ScannedBefore(f, dir, entries + more, p.first, p.records + records, trim, rest)
  {
    assert entries + more != [] && (entries + more)[0] == entries[0] && (entries + more)[1..] == entries[1..] + more;
    AfterTwice(rest.0, p.first, p.records, records);
  }

  /** Intact closed segments read back record for record and are left alone. */
  lemma {:induction false} ScanClosedEntries(f: SoundFormat, dir: Dir, entries: seq<Entry>, parts: seq<Part>, first: nat, more: seq<Entry>,
                                             trim: bool)
    requires Chained(parts, first) && ClosedOnDisk(f, dir, entries, parts) && 0 < first && EndOf(parts, first) <= U64_MAX
    requires AllEncodable(RecordsOf(parts)) && AllFit(RecordsOf(parts), f.limit)
    ensures ScannedBefore(f, dir, entries + more, first, RecordsOf(parts), trim, ScanEntries(f, dir, more, EndOf(parts, first), trim))
    decreases parts
  {
    var rest := ScanEntries(f, dir, more, EndOf(parts, first), trim);
    if parts == [] {
      assert entries + more == more;
      assert rest.0.After([]) == rest.0;
    } else {
      EndOfChain(parts[1..], parts[0].Next());
      RecordsSplit(parts, f.limit);
      ClosedSplit(f, dir, entries, parts);
      ScanClosedEntries(f, dir, entries[1..], parts[1..], parts[0].Next(), more, trim);
      ScanClosedFile(f, FileOf(dir, entries[0]), parts[0], trim);
      ScannedOneMore(f, dir, entries, more, parts[0], RecordsOf(parts[1..]), trim, rest);
    }
  }

  lemma ClosedSplit(f: Format, dir: Dir, entries: seq<Entry>, parts: seq<Part>)
    requires parts != [] && ClosedOnDisk(f, dir, entries, parts)
    ensures FileOf(dir, entries[0]) == SegmentFile(parts[0].first, false, SegmentBytes(f, parts[0].first, parts[0].records))
    ensures ClosedOnDisk(f, dir, entries[1..], parts[1..])
  {
  }

  lemma RecordsSplit(parts: seq<Part>, limit: nat)
    requires parts != [] && AllEncodable(RecordsOf(parts)) && AllFit(RecordsOf(parts), limit)
    ensures AllEncodable(parts[0].records) && AllFit(parts[0].records, limit)
    ensures AllEncodable(RecordsOf(parts[1..])) && AllFit(RecordsOf(parts[1..]), limit)
  {
    var a, b, all := parts[0].records, RecordsOf(parts[1..]), RecordsOf(parts);
    assert forall i | 0 <= i < |a| :: all[i] == a[i];
    assert forall i | 0 <= i < |b| :: all[|a| + i] == b[i];
  }

  lemma AfterTwice(read: FileScan, first: nat, a: seq<WalRecord>, b: seq<WalRecord>)
    ensures read.After(Numbered(first + |a|, b)).After(Numbered(first, a)) == read.After(Numbered(first, a + b))
  {
    NumberedConcat(first, a, b);
    AfterAfter(read, Numbered(first, a), Numbered(first + |a|, b));
  }

  lemma {:induction false} EndOfChain(parts: seq<Part>, first: nat)
    ensures Chained(parts, first) ==> EndOf(parts, first) == first + |RecordsOf(parts)|
  {
    if parts != [] {
      EndOfChain(parts[1..], parts[0].Next());
    }
  }

  lemma NumberedConcat(first: nat, a: seq<WalRecord>, b: seq<WalRecord>)
    ensures Numbered(first, a + b) == Numbered(first, a) + Numbered(first + |a|, b)
  {
  }
}
