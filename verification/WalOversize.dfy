/** The writer bounds a record's payload by the limit by which the reader bounds the whole record body: a
    payload between the two is written, synced and reported durable, and then taken for a torn tail. */
module WalOversize {
  import opened Integers
  import opened Options
  import opened LeBytes
  import opened WalCodec
  import opened SegmentNames
  import opened WalScan
  import opened WalDirectory
  import opened WalWriter
  import opened WalDurability
  import opened Sorting

  function Only(r: WalRecord): Pending {
    Pending(r, true, 0)
  }

  function State(f: Format, r: WalRecord, i: nat): Writer {
    var up := FIRST_WRITER.(accepting := true, phase := Idle);
    var taken := up.(issued := 1, phase := Collecting([Only(r)]));
    var created := taken.(store := Store([], Some(Part(1, [])), NO_FILE, false), unsynced := true,
                          phase := Writing([Only(r)], [], WritingHeader));
    var bytes := f.header(1) + f.encode(1, r);
    var written := created.(store := Store([], Some(Part(1, [r])), LogFile(bytes, 0), false), next := 2, phase := Syncing([Only(r)], [1]));
    var synced := written.(store := Store([], Some(Part(1, [r])), LogFile(bytes, |bytes|), false), safe := 1, unsynced := false,
                           phase := Fulfilling([Only(r)], [1]));
    if i == 0 then FIRST_WRITER
    else if i == 1 then up
    else if i == 2 then up.(queue := [Only(r)], issued := 1, queuedBytes := |r.payload|)
    else if i == 3 then taken
    else if i == 4 then taken.(phase := Writing([Only(r)], [], Ready))
    else if i == 5 then created
    else if i == 6 then created.(store := created.store.(active := LogFile(f.header(1), 0)), phase := Writing([Only(r)], [], Ready))
    else if i == 7 then written
    else if i == 8 then synced
    else synced.(fulfilled := [Fulfilled(0, DurableAccepted(1))], promised := {(1, r)}, phase := Idle)
  }

  function EventAt(r: WalRecord, i: nat): Event {
    if i == 0 then Restart(map[], [], true, true, 0)
    else if i == 1 then Append(r, true)
    else if i == 2 then Take
    else if i == 3 then Process
    else if i < 8 then Io(true, 0, false)
    else Fulfil
  }

  lemma StartsEmpty(f: Format, cfg: WriterConfig, r: WalRecord)
    ensures Step(f, cfg, State(f, r, 0), EventAt(r, 0), State(f, r, 1))
  {
    assert EntriesOf(FIRST_WRITER.store) == [] && SortBy(Earlier, []) == [];
    var (read, dir') := ScanDirectory(f, map[], [], 1, true);
    assert read == FileScan([], 1, Clean);
  }

  lemma Admitted(f: SoundFormat, cfg: WriterConfig, r: WalRecord, i: nat)
    requires r.Encodable() && cfg.Ok() && cfg.Takes(r) && 1 <= i <= 3
    ensures Step(f, cfg, State(f, r, i), EventAt(r, i), State(f, r, i + 1))
  {
    assert [Only(r)][1..] == [] && [] + [Only(r)] == [Only(r)];
  }

  lemma Written(f: SoundFormat, cfg: WriterConfig, r: WalRecord, i: nat)
    requires 4 <= i <= 6
    ensures Step(f, cfg, State(f, r, i), EventAt(r, i), State(f, r, i + 1))
  {
    assert [Only(r)][0].durable && AnyDurable([Only(r)]);
    assert NO_FILE.bytes + f.header(1) == f.header(1);
    assert [] + [r] == [r] && [] + [1] == [1];
  }

  lemma SyncedAndAnswered(f: SoundFormat, cfg: WriterConfig, r: WalRecord, i: nat)
    requires 7 <= i <= 8
    ensures Step(f, cfg, State(f, r, i), EventAt(r, i), State(f, r, i + 1))
  {
    assert State(f, r, 7).store.Log() == [r];
  }

  /** One segment that holds the record, all synced. */
  function LoneStore(f: Format, r: WalRecord): Store {
    var bytes := f.header(1) + f.encode(1, r);
    Store([], Some(Part(1, [r])), LogFile(bytes, |bytes|), false)
  }

  /** Concretely: any record that the writer takes, but whose body is over the reader's limit. Its ticket resolves durable
      after a successful sync, and yet recovery, without any crash damage at all, returns no record. */
  lemma DurableRecordIsLost(f: SoundFormat, cfg: WriterConfig, r: WalRecord) returns (states: seq<Writer>, events: seq<Event>)
    requires r.Encodable() && cfg.Ok() && cfg.Takes(r) && f.limit < r.BodyBytes()
    ensures IsRun(f, cfg, states, events) && forall i | 0 <= i < |events| && events[i].Append? :: events[i].record == r
    ensures var s := states[|events|];
            && s.fulfilled == [Fulfilled(0, DurableAccepted(1))] && s.promised == {(1, r)}
            && s.store == LoneStore(f, r)
            && forall dir, listing | OnDisk(f, dir, listing, s.store) :: ScanDirectory(f, dir, listing, 1, true).0.records == []
  {
    states, events := seq(10, i requires 0 <= i < 10 => State(f, r, i)), seq(9, i requires 0 <= i < 9 => EventAt(r, i));
    forall i | 0 <= i < 9
      ensures Steps(f, cfg)(states[i], events[i], states[i + 1])
    {
      if i == 0 {
        StartsEmpty(f, cfg, r);
      } else if i <= 3 {
        Admitted(f, cfg, r, i);
      } else if i <= 6 {
        Written(f, cfg, r, i);
      } else {
        SyncedAndAnswered(f, cfg, r, i);
      }
    }
    forall dir, listing | OnDisk(f, dir, listing, states[9].store)
      ensures ScanDirectory(f, dir, listing, 1, true).0.records == []
    {
      LastStore(f, r);
      ReadsNothingBack(f, r, Part(1, [r]), f.header(1) + f.encode(1, r), dir, listing);
    }
  }

  lemma LastStore(f: SoundFormat, r: WalRecord)
    ensures State(f, r, 9).store == LoneStore(f, r)
  {
  }

  lemma ReadsNothingBack(f: SoundFormat, r: WalRecord, part: Part, bytes: seq<Byte>, dir: Dir, listing: seq<string>)
    requires r.Encodable() && f.limit < r.BodyBytes() && bytes == f.header(1) + f.encode(1, r) && part == Part(1, [r])
    requires OnDisk(f, dir, listing, Store([], Some(part), LogFile(bytes, |bytes|), false))
    ensures ScanDirectory(f, dir, listing, 1, true).0.records == []
  {
    var e := part.ToEntry(true);
    assert EntriesOf(Store([], Some(part), LogFile(bytes, |bytes|), false)) == [e];
    ActiveNamed(part);
    OneEntry(listing, e);
    OneRecordFile(f, r, bytes);
    ScanSingle(f, dir, e, 1);
    assert ScanStart([e], 1) == 1;
  }

  lemma OneRecordFile(f: SoundFormat, r: WalRecord, bytes: seq<Byte>)
    requires r.Encodable() && f.limit < r.BodyBytes() && bytes == f.header(1) + f.encode(1, r)
    ensures ScanFile(f, SegmentFile(1, true, bytes), 1, true).records == []
    ensures !ScanFile(f, SegmentFile(1, true, bytes), 1, true).verdict.Failed?
  {
    assert EncodeAll(f, 2, [r][1..]) == [];
    assert bytes == SegmentBytes(f, 1, [r])[..|bytes|];
    ScanFileOfCut(f, 1, [r], |bytes|);
  }

  lemma ActiveNamed(part: Part)
    requires 0 < part.first <= U64_MAX
    ensures WellNamed([part.ToEntry(true)])
  {
  }

  lemma OneEntry(listing: seq<string>, e: Entry)
    requires WellNamed([e]) && multiset(Named(listing)) == multiset(NamesOf([e]))
    ensures SortBy(Earlier, Segments(listing)) == [e]
  {
    NamesTellSegments(listing, [e]);
    var s := Segments(listing);
    assert |s| == |multiset(s)| == 1;
    assert s[0] in multiset(s);
    assert s == [e];
    assert [e][..0] == [];
  }

  // ---- Exactly which records ----

  predicate AppendsOnly(may: WalRecord -> bool, events: seq<Event>) {
    forall i | 0 <= i < |events| && events[i].Append? :: may(events[i].record)
  }

  /** Recovery returns every record reported durable, under its LSN. */
  ghost predicate ReadsPromises(f: Format, promised: set<(nat, WalRecord)>, dir: Dir, listing: seq<string>) {
    var read := ScanDirectory(f, dir, listing, 1, true).0;
    forall p | p in promised :: 1 <= p.0 <= |read.records| && read.records[p.0 - 1] == Scanned(p.0, p.1)
  }

  /** Whatever a crash now leaves on disk. */
  ghost predicate SurvivesCrash(f: Format, cfg: WriterConfig, s: Writer) {
    forall cut, lost, undone, t: Writer, dir, listing |
      Steps(f, cfg)(s, Crash(cut, lost, undone), t) && OnDisk(f, dir, listing, t.store) :: ReadsPromises(f, s.promised, dir, listing)
  }

  lemma FittingSurvive(f: SoundFormat, cfg: WriterConfig, states: seq<Writer>, events: seq<Event>)
    requires IsRun(f, cfg, states, events) && AllAppendsFit(f, cfg, events)
    ensures SurvivesCrash(f, cfg, states[|events|])
  {
    forall cut, lost, undone, t: Writer, dir, listing |
      Steps(f, cfg)(states[|events|], Crash(cut, lost, undone), t) && OnDisk(f, dir, listing, t.store)
      ensures ReadsPromises(f, states[|events|].promised, dir, listing)
    {
      DurableRecordsSurvive(f, cfg, states, events, cut, lost, undone, t, dir, listing);
    }
  }

  /** The segment can be on disk, alone. */
  lemma LoneOnDisk(f: Format, r: WalRecord) returns (dir: Dir, listing: seq<string>)
    ensures OnDisk(f, dir, listing, LoneStore(f, r))
  {
    var e := Part(1, [r]).ToEntry(true);
    dir, listing := map[e.name := LoneStore(f, r).active.bytes], [e.name];
    ActiveNamed(Part(1, [r]));
    ClassifiedText(e.segment, "");
    assert EntriesOf(LoneStore(f, r)) == [e];
    assert [e][..0] == [] && listing[..0] == [] && NamesOf([e]) == [e.name];
  }

  function AfterCrash(s: Writer): Writer {
    s.(queue := [], queuedBytes := 0, accepting := false, phase := Down, unsynced := false)
  }

  /** A crash that damages nothing. */
  lemma CrashStep(f: Format, cfg: WriterConfig, s: Writer, r: WalRecord)
    requires s.store == LoneStore(f, r)
    ensures Steps(f, cfg)(s, Crash(|s.store.active.bytes|, false, false), AfterCrash(s))
  {
    assert s.store.active.bytes[..|s.store.active.bytes|] == s.store.active.bytes;
  }

  lemma NothingSurvives(f: Format, cfg: WriterConfig, s: Writer, r: WalRecord)
    requires s.promised == {(1, r)} && s.store == LoneStore(f, r)
    requires forall dir, listing | OnDisk(f, dir, listing, s.store) :: ScanDirectory(f, dir, listing, 1, true).0.records == []
    ensures !SurvivesCrash(f, cfg, s)
  {
    var dir, listing := LoneOnDisk(f, r);
    CrashStep(f, cfg, s, r);
    assert (1, r) in s.promised && !ReadsPromises(f, s.promised, dir, listing);
    assert OnDisk(f, dir, listing, AfterCrash(s).store);
  }

  lemma OversizeLost(f: SoundFormat, cfg: WriterConfig, r: WalRecord) returns (states: seq<Writer>, events: seq<Event>)
    requires r.Encodable() && cfg.Ok() && cfg.Takes(r) && f.limit < r.BodyBytes()
    ensures IsRun(f, cfg, states, events) && forall i | 0 <= i < |events| && events[i].Append? :: events[i].record == r
    ensures !SurvivesCrash(f, cfg, states[|events|])
  {
    states, events := DurableRecordIsLost(f, cfg, r);
    NothingSurvives(f, cfg, states[|events|], r);
  }

  /** Exactly if. Whatever records callers may append: in every run, for every crash, all that was reported durable is
      read back, if and only if each of these records that the writer may take fits the reader's limit with its header and
      checksum. */
  lemma DurableSurvivesIff(f: SoundFormat, cfg: WriterConfig, may: WalRecord -> bool)
    requires cfg.Ok()
    ensures (forall states: seq<Writer>, events: seq<Event> | IsRun(f, cfg, states, events) && AppendsOnly(may, events) :: SurvivesCrash(f, cfg, states[|events|]))
       <==> forall r | may(r) && r.Encodable() && cfg.Takes(r) :: r.BodyBytes() <= f.limit
  {
    if forall r | may(r) && r.Encodable() && cfg.Takes(r) :: r.BodyBytes() <= f.limit {
      forall states: seq<Writer>, events: seq<Event> | IsRun(f, cfg, states, events) && AppendsOnly(may, events)
        ensures SurvivesCrash(f, cfg, states[|events|])
      {
        forall i | 0 <= i < |events| && events[i].Append?
          ensures events[i].record.Encodable()
        {
          assert Steps(f, cfg)(states[i], events[i], states[i + 1]);
        }
        FittingSurvive(f, cfg, states, events);
      }
    } else {
      var r :| may(r) && r.Encodable() && cfg.Takes(r) && r.BodyBytes() > f.limit;
      var states, events := OversizeLost(f, cfg, r);
      assert AppendsOnly(may, events);
    }
  }
}
