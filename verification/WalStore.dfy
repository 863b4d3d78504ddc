/** What the files of the log hold, and what recovery reads from them after any crash. */
module WalStore {
  import opened Integers
  import opened Options
  import opened LeBytes
  import opened WalCodec
  import opened WalScan
  import opened WalDirectory
  import opened WalWriter
  import opened Sorting

  // ---- Chains of segments ----

  lemma {:induction false} ChainAppend(parts: seq<Part>, first: nat, p: Part)
    ensures RecordsOf(parts + [p]) == RecordsOf(parts) + p.records
    ensures EndOf(parts + [p], first) == p.Next()
    ensures Chained(parts + [p], first) <==> Chained(parts, first) && p.first == EndOf(parts, first) && p.records != []
  {
    if parts == [] {
      assert [p][1..] == [];
      assert parts + [p] == [p];
    } else {
      assert (parts + [p])[1..] == parts[1..] + [p] && (parts + [p])[0] == parts[0];
      ChainAppend(parts[1..], parts[0].Next(), p);
    }
  }

  lemma {:induction false} ChainFirsts(parts: seq<Part>, first: nat)
    requires Chained(parts, first)
    ensures EndOf(parts, first) == first + |RecordsOf(parts)|
    ensures forall i | 0 <= i < |parts| :: first <= parts[i].first < EndOf(parts, first)
    ensures forall i, j | 0 <= i < j < |parts| :: parts[i].first < parts[j].first
    ensures |ClosedEntries(parts)| == |parts| && forall i | 0 <= i < |parts| :: ClosedEntries(parts)[i] == parts[i].ToEntry(false)
  {
    if parts != [] {
      ChainFirsts(parts[1..], parts[0].Next());
      assert forall i | 0 <= i < |parts| :: parts[i] == if i == 0 then parts[0] else parts[1..][i - 1];
    }
  }

  // ---- The store ----

  /** The first `safe` records are on disk for good, and the active file holds a prefix of its records. */
  ghost predicate TailOk(f: Format, part: Part, active: LogFile, safe: nat) {
    && active.synced <= |active.bytes| && active.bytes <= SegmentBytes(f, part.first, part.records)
    && safe <= |part.records|
    && (safe > 0 ==> |SegmentBytes(f, part.first, part.records[..safe])| <= active.synced)
  }

  ghost predicate StoreOk(f: Format, store: Store, safe: nat) {
    var closed := |RecordsOf(store.parts)|;
    && AllEncodable(store.Log()) && AllFit(store.Log(), f.limit) && |store.Log()| < U64_MAX
    && Chained(store.parts, 1)
    && closed <= safe <= |store.Log()|
    && (store.tail.Some? ==>
          store.tail.value.first == 1 + closed && TailOk(f, store.tail.value, store.active, safe - closed) && !store.renamed)
  }

  /** The same as a value. */
  ghost function Stored(f: Format): (Store, nat) -> bool {
    (store: Store, safe: nat) => StoreOk(f, store, safe)
  }

  lemma EntriesInOrder(f: Format, store: Store, safe: nat)
    requires Stored(f)(store, safe)
    ensures Sorted(Earlier, EntriesOf(store))
  {
    ChainFirsts(store.parts, 1);
    var es := EntriesOf(store);
    forall i, j | 0 <= i < j < |es|
      ensures Earlier(es[i], es[j])
    {
    }
  }

  lemma EntriesWellNamed(f: Format, store: Store, safe: nat)
    requires Stored(f)(store, safe)
    ensures WellNamed(EntriesOf(store))
  {
    ChainFirsts(store.parts, 1);
  }

  /** In whatever order the directory is listed, the segments are scanned in theirs. */
  lemma ListedInOrder(f: Format, store: Store, safe: nat, listing: seq<string>)
    requires Stored(f)(store, safe) && multiset(Named(listing)) == multiset(NamesOf(EntriesOf(store)))
    ensures SortBy(Earlier, Segments(listing)) == EntriesOf(store)
  {
    EntriesOrdered();
    EntriesWellNamed(f, store, safe);
    NamesTellSegments(listing, EntriesOf(store));
    EntriesInOrder(f, store, safe);
    SortBySorted(Earlier, Segments(listing));
    SortedUnique(Earlier, SortBy(Earlier, Segments(listing)), EntriesOf(store));
  }

  /** How many records of the log come back. */
  function Recoverable(f: Format, store: Store): nat {
    |RecordsOf(store.parts)| + if store.tail.Some? then Surviving(store.tail.value.records, |store.active.bytes|, f.limit) else 0
  }

  lemma SafeSurvives(f: SoundFormat, part: Part, active: LogFile, safe: nat)
    requires AllFit(part.records, f.limit) && TailOk(f, part, active, safe)
    ensures safe <= Surviving(part.records, |active.bytes|, f.limit)
  {
    if safe > 0 {
      ReadablePast(f, part.first, part.records, safe, |active.bytes| - SEGMENT_HEADER_BYTES);
    }
  }

  lemma TailRecords(f: Format, store: Store, safe: nat)
    requires Stored(f)(store, safe)
    ensures AllEncodable(RecordsOf(store.parts)) && AllFit(RecordsOf(store.parts), f.limit)
    ensures store.tail.Some? ==> AllEncodable(store.tail.value.records) && AllFit(store.tail.value.records, f.limit)
  {
    var closed, log := RecordsOf(store.parts), store.Log();
    assert forall i | 0 <= i < |closed| :: log[i] == closed[i];
    if store.tail.Some? {
      var records := store.tail.value.records;
      assert forall i | 0 <= i < |records| :: log[|closed| + i] == records[i];
    }
  }

  /** What recovery makes of the bytes of the active segment. */
  function KeptBytes(f: Format, store: Store): seq<Byte> {
    if store.tail == None || |store.active.bytes| < SEGMENT_HEADER_BYTES then []
    else SegmentBytes(f, store.tail.value.first, store.tail.value.records[..Surviving(store.tail.value.records, |store.active.bytes|, f.limit)])
  }

  lemma ScanActive(f: SoundFormat, dir: Dir, e: Entry, part: Part, active: LogFile, safe: nat)
    requires AllEncodable(part.records) && 0 < part.first && part.Next() <= U64_MAX
    requires TailOk(f, part, active, safe) && FileOf(dir, e) == SegmentFile(part.first, true, active.bytes)
    ensures var n := Surviving(part.records, |active.bytes|, f.limit);
            var (read, dir') := ScanEntries(f, dir, [e], part.first, true);
            && read == FileScan(Numbered(part.first, part.records[..n]), part.first + n, Clean)
            && FileOf(dir', e).bytes == if |active.bytes| < SEGMENT_HEADER_BYTES then [] else SegmentBytes(f, part.first, part.records[..n])
  {
    var file := FileOf(dir, e);
    assert active.bytes == SegmentBytes(f, part.first, part.records)[..|active.bytes|];
    ScanFileOfCut(f, part.first, part.records, |active.bytes|);
    ScanSingle(f, dir, e, part.first);
  }

  lemma ClosedScans(f: SoundFormat, parts: seq<Part>, dir: Dir)
    requires Chained(parts, 1) && ClosedOnDisk(f, dir, ClosedEntries(parts), parts) && 1 + |RecordsOf(parts)| <= U64_MAX
    requires AllEncodable(RecordsOf(parts)) && AllFit(RecordsOf(parts), f.limit)
    ensures ScanEntries(f, dir, ClosedEntries(parts), 1, true).0 ==
            FileScan(Numbered(1, RecordsOf(parts)), 1 + |RecordsOf(parts)|, Clean)
  {
    EndOfChain(parts, 1);
    ScanClosedEntries(f, dir, ClosedEntries(parts), parts, 1, [], true);
    assert ClosedEntries(parts) + [] == ClosedEntries(parts);
    assert Numbered(1, RecordsOf(parts)) + [] == Numbered(1, RecordsOf(parts));
  }

  lemma ClosedReadsBack(f: SoundFormat, store: Store, safe: nat, dir: Dir)
    requires Stored(f)(store, safe) && store.tail == None && ClosedOnDisk(f, dir, ClosedEntries(store.parts), store.parts)
    ensures ScanEntries(f, dir, EntriesOf(store), 1, true).0 == FileScan(Numbered(1, store.Log()), 1 + |store.Log()|, Clean)
  {
    TailRecords(f, store, safe);
    ClosedBasics(f, store, safe);
    ClosedScans(f, store.parts, dir);
  }

  lemma ClosedBasics(f: Format, store: Store, safe: nat)
    requires Stored(f)(store, safe) && store.tail == None
    ensures Chained(store.parts, 1) && store.Log() == RecordsOf(store.parts) && 1 + |RecordsOf(store.parts)| <= U64_MAX
    ensures EntriesOf(store) == ClosedEntries(store.parts)
  {
  }

  lemma TailScans(f: SoundFormat, store: Store, safe: nat, dir: Dir)
    requires Stored(f)(store, safe) && store.tail.Some? && ClosedOnDisk(f, dir, ClosedEntries(store.parts), store.parts)
    ensures var part := store.tail.value;
            ScannedBefore(f, dir, EntriesOf(store), 1, RecordsOf(store.parts), true, ScanEntries(f, dir, [part.ToEntry(true)], part.first, true))
  {
    TailRecords(f, store, safe);
    ChainFirsts(store.parts, 1);
    ScanClosedEntries(f, dir, ClosedEntries(store.parts), store.parts, 1, [store.tail.value.ToEntry(true)], true);
  }

  lemma ScansTail(f: SoundFormat, store: Store, safe: nat, dir: Dir)
    requires Stored(f)(store, safe) && store.tail.Some?
    requires FileOf(dir, store.tail.value.ToEntry(true)) == SegmentFile(store.tail.value.first, true, store.active.bytes)
    ensures var part, closed, n := store.tail.value, RecordsOf(store.parts), Recoverable(f, store);
            var rest := ScanEntries(f, dir, [part.ToEntry(true)], part.first, true);
            && part.first == 1 + |closed| && |closed| <= n <= |closed| + |part.records|
            && rest.0 == FileScan(Numbered(1 + |closed|, part.records[..n - |closed|]), 1 + n, Clean)
            && FileOf(rest.1, part.ToEntry(true)).bytes == KeptBytes(f, store)
  {
    var closed, part := RecordsOf(store.parts), store.tail.value;
    TailRecords(f, store, safe);
    assert TailOk(f, part, store.active, safe - |closed|);
    ScanActive(f, dir, part.ToEntry(true), part, store.active, safe - |closed|);
  }

  lemma TailReadsBack(f: SoundFormat, store: Store, safe: nat, dir: Dir)
    requires Stored(f)(store, safe) && store.tail.Some? && ClosedOnDisk(f, dir, ClosedEntries(store.parts), store.parts)
    requires FileOf(dir, store.tail.value.ToEntry(true)) == SegmentFile(store.tail.value.first, true, store.active.bytes)
    ensures var n := Recoverable(f, store);
            && n <= |store.Log()|
            && ScanEntries(f, dir, EntriesOf(store), 1, true).0 == FileScan(Numbered(1, store.Log()[..n]), 1 + n, Clean)
            && FileOf(ScanEntries(f, dir, EntriesOf(store), 1, true).1, store.tail.value.ToEntry(true)).bytes == KeptBytes(f, store)
  {
    var closed, part, n := RecordsOf(store.parts), store.tail.value, Recoverable(f, store);
    TailScans(f, store, safe, dir);
    ScansTail(f, store, safe, dir);
    JoinScans(f, dir, EntriesOf(store), closed, part.records[..n - |closed|], ScanEntries(f, dir, [part.ToEntry(true)], part.first, true));
    LogPrefix(closed, part.records, n);
  }

  lemma JoinScans(f: Format, dir: Dir, all: seq<Entry>, closed: seq<WalRecord>, more: seq<WalRecord>, rest: (FileScan, Dir))
    requires ScannedBefore(f, dir, all, 1, closed, true, rest)
    requires rest.0 == FileScan(Numbered(1 + |closed|, more), 1 + |closed| + |more|, Clean)
    ensures ScanEntries(f, dir, all, 1, true) == (FileScan(Numbered(1, closed + more), 1 + |closed + more|, Clean), rest.1)
  {
    NumberedConcat(1, closed, more);
  }

  lemma LogPrefix(closed: seq<WalRecord>, records: seq<WalRecord>, n: nat)
    requires |closed| <= n <= |closed| + |records|
    ensures (closed + records)[..n] == closed + records[..n - |closed|]
  {
  }

  lemma RecoverableBounds(f: SoundFormat, store: Store, safe: nat)
    requires Stored(f)(store, safe)
    ensures safe <= Recoverable(f, store) <= |store.Log()|
    ensures store.tail == None ==> store.Log()[..Recoverable(f, store)] == store.Log()
  {
    if store.tail.Some? {
      TailRecords(f, store, safe);
      SafeSurvives(f, store.tail.value, store.active, safe - |RecordsOf(store.parts)|);
    }
  }

  /** After any crash: the scan succeeds, returns a prefix of the log with identical contents that includes every
      safe record, and cuts the active segment to exactly what was read. */
  lemma StoreReadsBack(f: SoundFormat, store: Store, safe: nat, dir: Dir, listing: seq<string>)
    requires Stored(f)(store, safe) && OnDisk(f, dir, listing, store)
    ensures var n := Recoverable(f, store);
            && safe <= n <= |store.Log()|
            && ScanDirectory(f, dir, listing, 1, true).0 == FileScan(Numbered(1, store.Log()[..n]), 1 + n, Clean)
            && (store.tail.Some? ==>
                  FileOf(ScanDirectory(f, dir, listing, 1, true).1, store.tail.value.ToEntry(true)).bytes == KeptBytes(f, store))
  {
    ListedInOrder(f, store, safe, listing);
    RecoverableBounds(f, store, safe);
    if store.tail.Some? {
      TailReadsBack(f, store, safe, dir);
    } else {
      ClosedReadsBack(f, store, safe, dir);
    }
  }

  /** A crash keeps the safe records where they are. */
  lemma CrashKeepsStore(f: SoundFormat, a: Store, b: Store, cut: nat, lost: bool, undone: bool, safe: nat)
    requires Stored(f)(a, safe) && Crashed(f, a, b, cut, lost, undone)
    ensures Stored(f)(b, safe) && b.Log()[..safe] == a.Log()[..safe]
  {
    if a.tail.Some? {
      if lost {
        LostTail(f, a, b, safe);
      }
    } else if undone {
      UndoneRename(f, a, b, safe);
    }
  }

  lemma LostTail(f: SoundFormat, a: Store, b: Store, safe: nat)
    requires Stored(f)(a, safe) && a.tail.Some? && a.active.synced == 0 && b == Store(a.parts, None, NO_FILE, false)
    ensures Stored(f)(b, safe) && b.Log()[..safe] == a.Log()[..safe]
  {
    TailRecords(f, a, safe);
    assert b.Log() == RecordsOf(a.parts);
  }

  /** A fully synced active segment. */
  lemma FullTailOk(f: Format, part: Part)
    ensures var bytes := SegmentBytes(f, part.first, part.records); TailOk(f, part, LogFile(bytes, |bytes|), |part.records|)
  {
    assert part.records[..|part.records|] == part.records;
  }

  lemma UndoneRename(f: Format, a: Store, b: Store, safe: nat)
    requires Stored(f)(a, safe) && a.tail == None && Crashed(f, a, b, 0, false, true)
    ensures Stored(f)(b, safe) && b.Log() == a.Log()
  {
    var part := a.parts[|a.parts| - 1];
    LastAside(a.parts);
    ChainAppend(b.parts, 1, part);
    ChainFirsts(b.parts, 1);
    SameLog(a, b);
    FullTailOk(f, part);
    assert safe - |RecordsOf(b.parts)| == |part.records|;
  }

  lemma LastAside(parts: seq<Part>)
    requires parts != []
    ensures parts == parts[..|parts| - 1] + [parts[|parts| - 1]]
  {
  }

  lemma SameLog(a: Store, b: Store)
    requires a.parts != [] && a.tail == None && b.tail == Some(a.parts[|a.parts| - 1]) && b.parts == a.parts[..|a.parts| - 1]
    ensures a.Log() == b.Log() == RecordsOf(a.parts)
  {
    LastAside(a.parts);
    ChainAppend(b.parts, 1, b.tail.value);
  }
}
