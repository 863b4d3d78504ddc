/** The limits of the log writer over whole runs: its queue, its batches, and the size of its segments. */
module WalLimits {
  import opened LeBytes
  import opened WalCodec
  import opened WalScan
  import opened WalDirectory
  import opened WalWriter
  import opened WalTickets
  import opened WalDurability

  // ---- Queue and batches ----

  lemma {:induction false} PayloadConcat(a: seq<Pending>, b: seq<Pending>)
    ensures PayloadBytes(a + b) == PayloadBytes(a) + PayloadBytes(b)
  {
    if b == [] {
      assert a + b == a;
    } else {
      assert (a + b)[..|a + b| - 1] == a + b[..|b| - 1];
      PayloadConcat(a, b[..|b| - 1]);
    }
  }

  lemma FirstPayload(list: seq<Pending>)
    requires list != []
    ensures PayloadBytes(list) == |list[0].record.payload| + PayloadBytes(list[1..])
  {
    PayloadConcat([list[0]], list[1..]);
    assert [list[0]] + list[1..] == list && [list[0]][..0] == [];
  }

  /** The queue is counted right and within its limits. */
  predicate QueueOk(cfg: WriterConfig, s: Writer) {
    s.queuedBytes == PayloadBytes(s.queue) <= cfg.queueMaxBytes && |s.queue| <= cfg.queueMaxRecords
  }

  /** The batch collected or being written is within its limits; only a single record may be larger. */
  predicate BatchOk(cfg: WriterConfig, s: Writer) {
    s.phase.Collecting? || s.phase.Writing? || s.phase.Syncing? ==>
      && |Held(s.phase)| <= cfg.batchMaxRecords
      && (PayloadBytes(Held(s.phase)) <= cfg.batchMaxBytes || |Held(s.phase)| == 1)
  }

  lemma TakeKeepsLimits(cfg: WriterConfig, s: Writer)
    requires QueueOk(cfg, s) && BatchOk(cfg, s) && CanTake(cfg, s)
    ensures QueueOk(cfg, DoTake(s)) && BatchOk(cfg, DoTake(s))
  {
    FirstPayload(s.queue);
    PayloadConcat(Batch(s.phase), [s.queue[0]]);
    assert [s.queue[0]][..0] == [];
  }

  lemma AppendKeepsLimits(cfg: WriterConfig, s: Writer, record: WalRecord, durable: bool)
    requires QueueOk(cfg, s) && BatchOk(cfg, s)
    ensures QueueOk(cfg, DoAppend(cfg, s, record, durable)) && BatchOk(cfg, DoAppend(cfg, s, record, durable))
  {
    var p := Pending(record, durable, s.issued);
    PayloadConcat(s.queue, [p]);
    assert [p][..0] == [];
  }

  lemma IoKeepsLimits(f: Format, cfg: WriterConfig, s: Writer, ok: bool, partial: nat, aged: bool)
    requires QueueOk(cfg, s) && BatchOk(cfg, s)
    ensures QueueOk(cfg, DoIo(f, cfg, s, ok, partial, aged)) && BatchOk(cfg, DoIo(f, cfg, s, ok, partial, aged))
  {
    IoTouches(f, cfg, s, ok, partial, aged);
    assert Touched(s, DoIo(f, cfg, s, ok, partial, aged));
  }

  lemma FulfilKeepsLimits(cfg: WriterConfig, s: Writer)
    requires QueueOk(cfg, s) && BatchOk(cfg, s)
    ensures QueueOk(cfg, DoFulfil(s)) && BatchOk(cfg, DoFulfil(s))
  {
  }

  lemma StartKeepsLimits(f: Format, cfg: WriterConfig, s: Writer, store: Store, next: nat, opens: bool, ok: bool, partial: nat)
    requires QueueOk(cfg, s) && s.phase.Down?
    ensures QueueOk(cfg, Started(f, s, store, next, opens, ok, partial)) && BatchOk(cfg, Started(f, s, store, next, opens, ok, partial))
  {
  }

  lemma RestartKeepsLimits(f: Format, cfg: WriterConfig, s: Writer, dir: Dir, listing: seq<string>, opens: bool, ok: bool, partial: nat, t: Writer)
    requires QueueOk(cfg, s) && BatchOk(cfg, s) && RestartStep(f, s, dir, listing, opens, ok, partial, t)
    ensures QueueOk(cfg, t) && BatchOk(cfg, t)
  {
    var (read, dir') := ScanDirectory(f, dir, listing, 1, true);
    var kept := if s.store.tail.Some? then FileOf(dir', s.store.tail.value.ToEntry(true)).bytes else [];
    StartKeepsLimits(f, cfg, s, Recovered(s.store, kept, |read.records|), read.expected, opens, ok, partial);
  }

  lemma QuietKeepsLimits(f: Format, cfg: WriterConfig, s: Writer, e: Event, t: Writer)
    requires QueueOk(cfg, s) && BatchOk(cfg, s) && Steps(f, cfg)(s, e, t)
    requires e.Process? || e.EnterFault? || e.SwapQueue? || e.Stop? || e.Exit? || e.Crash?
    ensures QueueOk(cfg, t) && BatchOk(cfg, t)
  {
  }

  lemma StepKeepsLimits(f: Format, cfg: WriterConfig, s: Writer, e: Event, t: Writer)
    requires QueueOk(cfg, s) && BatchOk(cfg, s) && Steps(f, cfg)(s, e, t)
    ensures QueueOk(cfg, t) && BatchOk(cfg, t)
  {
    match e
    case Append(record, durable) => AppendKeepsLimits(cfg, s, record, durable);
    case Take => TakeKeepsLimits(cfg, s);
    case Io(ok, partial, aged) => IoKeepsLimits(f, cfg, s, ok, partial, aged);
    case Fulfil => FulfilKeepsLimits(cfg, s);
    case Restart(dir, listing, opens, ok, partial) => RestartKeepsLimits(f, cfg, s, dir, listing, opens, ok, partial, t);
    case _ => QuietKeepsLimits(f, cfg, s, e, t);
  }

  /** In every run the queue stays within its limits, its bytes counted right, and so does each batch, but for a single record
      that is larger than a batch may be. */
  lemma {:induction false} QueueWithinLimits(f: Format, cfg: WriterConfig, states: seq<Writer>, events: seq<Event>)
    requires IsRun(f, cfg, states, events)
    ensures QueueOk(cfg, states[|events|]) && BatchOk(cfg, states[|events|])
  {
    if events != [] {
      var n := |events| - 1;
      QueueWithinLimits(f, cfg, states[..n + 1], events[..n]);
      StepKeepsLimits(f, cfg, states[n], events[n], states[n + 1]);
    }
  }

  // ---- Segments ----

  /** The size of a segment with these records. */
  function SizeOf(records: seq<WalRecord>): nat {
    if records == [] then SEGMENT_HEADER_BYTES else SizeOf(records[..|records| - 1]) + PREFIX_BYTES + records[|records| - 1].BodyBytes()
  }

  /** A segment is within its limit, but for a single record that is larger than a segment may be. */
  predicate SizeOk(cfg: WriterConfig, records: seq<WalRecord>) {
    SizeOf(records) <= cfg.segmentMaxBytes || |records| <= 1
  }

  predicate SegmentsOk(cfg: WriterConfig, store: Store) {
    && (forall i | 0 <= i < |store.parts| :: SizeOk(cfg, store.parts[i].records))
    && (store.tail.Some? ==> SizeOk(cfg, store.tail.value.records))
  }

  lemma {:induction false} SizeOfBytes(f: SoundFormat, first: nat, records: seq<WalRecord>)
    ensures |SegmentBytes(f, first, records)| == SizeOf(records)
  {
    if records == [] {
      assert EncodeAll(f, first, []) == [];
    } else {
      var init, last := records[..|records| - 1], records[|records| - 1];
      SizeOfBytes(f, first, init);
      EncodeAppend(f, first, init, last);
      assert init + [last] == records;
    }
  }

  lemma {:induction false} SizeRises(records: seq<WalRecord>, n: nat)
    requires n <= |records|
    ensures SizeOf(records[..n]) <= SizeOf(records)
  {
    if n < |records| {
      SizeRises(records[..|records| - 1], n);
      assert records[..|records| - 1][..n] == records[..n];
    } else {
      assert records[..n] == records;
    }
  }

  lemma PrefixOk(cfg: WriterConfig, records: seq<WalRecord>, n: nat)
    requires SizeOk(cfg, records) && n <= |records|
    ensures SizeOk(cfg, records[..n])
  {
    SizeRises(records, n);
  }

  /** A record is only written to a segment that has room for it, or none yet. */
  lemma RecordKeepsSegments(f: SoundFormat, cfg: WriterConfig, s: Writer, ok: bool, partial: nat, aged: bool)
    requires SegmentsOk(cfg, s.store) && s.phase.Writing? && |s.phase.lsns| < |s.phase.batch|
    requires s.store.tail.Some? && s.store.active.bytes == SegmentBytes(f, s.store.tail.value.first, s.store.tail.value.records)
    requires !NeedsRotation(cfg, s.store.active, PREFIX_BYTES + s.phase.batch[|s.phase.lsns|].record.BodyBytes(), aged)
    ensures SegmentsOk(cfg, WriteRecord(f, s, s.phase.batch, s.phase.lsns, ok, partial).store)
  {
    var records, r := s.store.tail.value.records, s.phase.batch[|s.phase.lsns|].record;
    SizeOfBytes(f, s.store.tail.value.first, records);
    assert (records + [r])[..|records|] == records;
    if records != [] {
      SizeRises(records, 1);
      assert records[..1][..0] == [];
    }
  }

  lemma IoKeepsSegments(f: SoundFormat, cfg: WriterConfig, s: Writer, ok: bool, partial: nat, aged: bool)
    requires Sturdies(f)(s) && SegmentsOk(cfg, s.store) && (s.phase.Writing? ==> !Broken(s))
    ensures SegmentsOk(cfg, DoIo(f, cfg, s, ok, partial, aged).store)
  {
    if s.phase.Writing? {
      WriteKeepsSegments(f, cfg, s, ok, partial, aged);
    }
  }

  lemma TidyTail(f: Format, s: Writer)
    requires Sturdies(f)(s) && s.phase.Writing? && s.phase.stage == Ready && !Broken(s) && s.store.tail.Some?
    ensures s.store.active.bytes == SegmentBytes(f, s.store.tail.value.first, s.store.tail.value.records)
  {
    assert Tidy(f, s);
  }

  lemma WriteKeepsSegments(f: SoundFormat, cfg: WriterConfig, s: Writer, ok: bool, partial: nat, aged: bool)
    requires Sturdies(f)(s) && SegmentsOk(cfg, s.store) && s.phase.Writing? && !Broken(s)
    ensures SegmentsOk(cfg, DoWrite(f, cfg, s, s.phase.batch, s.phase.lsns, s.phase.stage, ok, partial, aged).store)
  {
    if s.phase.stage == Ready && |s.phase.lsns| < |s.phase.batch| && s.store.tail.Some? {
      TidyTail(f, s);
      if !NeedsRotation(cfg, s.store.active, PREFIX_BYTES + s.phase.batch[|s.phase.lsns|].record.BodyBytes(), aged) {
        RecordKeepsSegments(f, cfg, s, ok, partial, aged);
      }
    }
  }

  lemma CrashKeepsSegments(f: Format, cfg: WriterConfig, a: Store, b: Store, cut: nat, lost: bool, undone: bool)
    requires SegmentsOk(cfg, a) && Crashed(f, a, b, cut, lost, undone)
    ensures SegmentsOk(cfg, b)
  {
  }

  lemma RecoveredKeepsSegments(cfg: WriterConfig, store: Store, kept: seq<Byte>, n: nat)
    requires SegmentsOk(cfg, store)
    ensures SegmentsOk(cfg, Recovered(store, kept, n))
  {
    if store.tail.Some? {
      var records, m := store.tail.value.records, n - |RecordsOf(store.parts)|;
      if 0 <= m <= |records| {
        PrefixOk(cfg, records, m);
      }
    }
  }

  lemma RestartKeepsSegments(f: Format, cfg: WriterConfig, s: Writer, dir: Dir, listing: seq<string>, opens: bool, ok: bool, partial: nat, t: Writer)
    requires SegmentsOk(cfg, s.store) && RestartStep(f, s, dir, listing, opens, ok, partial, t)
    ensures SegmentsOk(cfg, t.store)
  {
    var (read, dir') := ScanDirectory(f, dir, listing, 1, true);
    var kept := if s.store.tail.Some? then FileOf(dir', s.store.tail.value.ToEntry(true)).bytes else [];
    var store := Recovered(s.store, kept, |read.records|);
    RecoveredKeepsSegments(cfg, s.store, kept, |read.records|);
    StartedKeepsSegments(f, cfg, s, store, read.expected, opens, ok, partial);
  }

  lemma StartedKeepsSegments(f: Format, cfg: WriterConfig, s: Writer, store: Store, next: nat, opens: bool, ok: bool, partial: nat)
    requires SegmentsOk(cfg, store)
    ensures SegmentsOk(cfg, Started(f, s, store, next, opens, ok, partial).store)
  {
  }

  lemma QuietKeepsSegments(f: Format, cfg: WriterConfig, s: Writer, e: Event, t: Writer)
    requires SegmentsOk(cfg, s.store) && Steps(f, cfg)(s, e, t) && !e.Io? && !e.Crash? && !e.Restart?
    ensures SegmentsOk(cfg, t.store)
  {
  }

  lemma StepKeepsSegments(f: SoundFormat, cfg: WriterConfig, s: Writer, e: Event, t: Writer)
    requires Sturdies(f)(s) && TicketsOk(s) && SegmentsOk(cfg, s.store) && Steps(f, cfg)(s, e, t)
    ensures SegmentsOk(cfg, t.store)
  {
    match e
    case Io(ok, partial, aged) => IoKeepsSegments(f, cfg, s, ok, partial, aged);
    case Crash(cut, lost, undone) => CrashKeepsSegments(f, cfg, s.store, t.store, cut, lost, undone);
    case Restart(dir, listing, opens, ok, partial) => RestartKeepsSegments(f, cfg, s, dir, listing, opens, ok, partial, t);
    case _ => QuietKeepsSegments(f, cfg, s, e, t);
  }

  /** In every run in which what the writer may take fits the reader's limit: every segment, closed or active, is within the size
      configured, but for a single record that is larger. */
  lemma {:induction false} SegmentsWithinLimits(f: SoundFormat, cfg: WriterConfig, states: seq<Writer>, events: seq<Event>)
    requires AllAppendsFit(f, cfg, events) && IsRun(f, cfg, states, events)
    ensures SegmentsOk(cfg, states[|events|].store)
  {
    if events != [] {
      var n := |events| - 1;
      SegmentsWithinLimits(f, cfg, states[..n + 1], events[..n]);
      RunKeepsSturdy(f, cfg, states[..n + 1], events[..n]);
      RunKeepsTickets(f, cfg, states[..n + 1], events[..n]);
      StepKeepsSegments(f, cfg, states[n], events[n], states[n + 1]);
    }
  }

  /** A segment is closed only if it holds a record and either is too old or has no room for the next one. */
  lemma ClosedOnlyIfNeeded(f: SoundFormat, cfg: WriterConfig, s: Writer, ok: bool, partial: nat, aged: bool, t: Writer)
    requires Sturdies(f)(s) && TicketsOk(s) && Steps(f, cfg)(s, Io(ok, partial, aged), t)
    requires s.phase.Writing? && s.phase.stage == Ready && t.phase.Writing? && t.phase.stage == Renaming
    ensures s.store.tail.Some? && s.store.tail.value.records != [] && |s.phase.lsns| < |s.phase.batch|
    ensures aged || SizeOf(s.store.tail.value.records + [s.phase.batch[|s.phase.lsns|].record]) > cfg.segmentMaxBytes
  {
    var records, r := s.store.tail.value.records, s.phase.batch[|s.phase.lsns|].record;
    assert Tidy(f, s);
    SizeOfBytes(f, s.store.tail.value.first, records);
    assert (records + [r])[..|records|] == records;
  }
}
