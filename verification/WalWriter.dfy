/** The log writer as a machine: callers append, one thread forms batches and does the file operations one by
    one, each of which may fail, the process may crash between any two of them, and recovery restarts it. */
module WalWriter {
  import opened Integers
  import opened Options
  import opened LeBytes
  import opened WalCodec
  import opened WalScan
  import opened WalDirectory

  datatype WriterConfig = WriterConfig(
    queueMaxRecords: nat, queueMaxBytes: nat, batchMaxRecords: nat, batchMaxBytes: nat,
    segmentMaxBytes: nat, maxRecordBytes: nat, allowRelaxed: bool)
  {
    /** What the writer asks of its configuration before it starts. */
    predicate Ok() {
      && batchMaxRecords > 0 && batchMaxBytes > 0 && queueMaxRecords > 0 && queueMaxBytes > 0
      && 0 < maxRecordBytes <= segmentMaxBytes
    }

    /** The writer may ever take the record. */
    predicate Takes(record: WalRecord) {
      |record.payload| <= maxRecordBytes && |record.payload| <= queueMaxBytes
    }
  }

  datatype Pending = Pending(record: WalRecord, durable: bool, ticket: nat)

  datatype Outcome = DurableAccepted(lsn: nat) | RelaxedAccepted(lsn: nat) | Refused

  datatype Fulfilled = Fulfilled(ticket: nat, outcome: Outcome)

  /** A segment file: its bytes, and how many of the first of them survive any crash. */
  datatype LogFile = LogFile(bytes: seq<Byte>, synced: nat)

  datatype Stage = Ready | Renaming | SyncingDir | Creating | WritingHeader

  /** Where the writer thread stands. */
  datatype Phase =
    | Idle
    | Collecting(batch: seq<Pending>)
    | Writing(batch: seq<Pending>, lsns: seq<nat>, stage: Stage)
    | Syncing(batch: seq<Pending>, lsns: seq<nat>)
    | Fulfilling(batch: seq<Pending>, lsns: seq<nat>)
    | Failing(batch: seq<Pending>)
    | Faulting
    | Rejecting(batch: seq<Pending>)
    | Exited
    | Down

  /** The files with their records: closed segments, and the active one. `renamed` tells that the last closing
      is not yet in the directory for good. */
  datatype Store = Store(parts: seq<Part>, tail: Option<Part>, active: LogFile, renamed: bool) {
    function Log(): seq<WalRecord> {
      RecordsOf(parts) + if tail.Some? then tail.value.records else []
    }
  }

  /** `safe` counts the records no crash can take; `promised` are those reported durable, in any incarnation. */
  datatype Writer = Writer(
    queue: seq<Pending>, queuedBytes: nat, issued: nat, accepting: bool, stopping: bool, fault: bool,
    phase: Phase, next: nat, unsynced: bool, store: Store, fulfilled: seq<Fulfilled>,
    base: nat, safe: nat, promised: set<(nat, WalRecord)>)

  const NO_FILE := LogFile([], 0)
  const FIRST_WRITER := Writer([], 0, 0, false, false, false, Down, 1, false, Store([], None, NO_FILE, false), [], 1, 0, {})

  datatype Event =
    | Append(record: WalRecord, durable: bool)
    | Take
    | Process
    | Io(ok: bool, partial: nat, aged: bool)
    | Fulfil
    | EnterFault
    | SwapQueue
    | Stop
    | Exit(synced: bool)
    | Crash(cut: nat, lost: bool, undone: bool)
    | Restart(dir: Dir, listing: seq<string>, opens: bool, ok: bool, partial: nat)

  function PayloadBytes(list: seq<Pending>): nat {
    if list == [] then 0 else PayloadBytes(list[..|list| - 1]) + |list[|list| - 1].record.payload|
  }

  predicate AnyDurable(list: seq<Pending>) {
    exists i :: 0 <= i < |list| && list[i].durable
  }

  /** The first `n` bytes of what was to be written reached the file. */
  function Wrote(file: LogFile, data: seq<Byte>, ok: bool, partial: nat): LogFile {
    file.(bytes := file.bytes + if ok || partial > |data| then data else data[..partial])
  }

  function SyncedAll(s: Writer): Writer {
    s.(store := s.store.(active := s.store.active.(synced := |s.store.active.bytes|)), safe := |s.store.Log()|)
  }

  predicate NeedsRotation(cfg: WriterConfig, file: LogFile, recordBytes: nat, aged: bool) {
    |file.bytes| > SEGMENT_HEADER_BYTES && (|file.bytes| + recordBytes > cfg.segmentMaxBytes || aged)
  }

  /** A file operation failed: the whole batch fails, then the writer becomes read-only. */
  function Fail(s: Writer, batch: seq<Pending>): Writer {
    s.(phase := Failing(batch))
  }

  function CreateSegment(s: Writer, batch: seq<Pending>, lsns: seq<nat>, ok: bool): Writer {
    if !ok then Fail(s, batch)
    else s.(store := s.store.(tail := Some(Part(s.next, [])), active := NO_FILE), unsynced := true,
            phase := Writing(batch, lsns, WritingHeader))
  }

  function StartSegment(f: Format, s: Writer, batch: seq<Pending>, lsns: seq<nat>, ok: bool, partial: nat): Writer
    requires s.store.tail.Some?
  {
    var t := s.(store := s.store.(active := Wrote(s.store.active, f.header(s.store.tail.value.first), ok, partial)));
    if ok then t.(phase := Writing(batch, lsns, Ready)) else Fail(t, batch)
  }

  function CloseSegment(s: Writer, batch: seq<Pending>, lsns: seq<nat>): Writer
    requires s.store.tail.Some?
  {
    s.(store := Store(s.store.parts + [s.store.tail.value], None, NO_FILE, true), phase := Writing(batch, lsns, SyncingDir))
  }

  /** The record goes into the log whether or not the write succeeds; only its first bytes may be there. */
  function WriteRecord(f: Format, s: Writer, batch: seq<Pending>, lsns: seq<nat>, ok: bool, partial: nat): Writer
    requires s.store.tail.Some? && |lsns| < |batch|
  {
    var r, part := batch[|lsns|].record, s.store.tail.value;
    var t := s.(store := s.store.(tail := Some(part.(records := part.records + [r])),
                                  active := Wrote(s.store.active, f.encode(s.next, r), ok, partial)));
    if !ok then Fail(t, batch)
    else
      var done := lsns + [s.next];
      t.(next := s.next + 1, unsynced := true,
         phase := if |done| < |batch| then Writing(batch, done, Ready)
                  else if AnyDurable(batch) then Syncing(batch, done) else Fulfilling(batch, done))
  }

  /** The next file operation while a batch is being written. */
  function DoWrite(f: Format, cfg: WriterConfig, s: Writer, batch: seq<Pending>, lsns: seq<nat>, stage: Stage,
                   ok: bool, partial: nat, aged: bool): Writer
  {
    if stage == Ready && |lsns| < |batch| then
      if s.store.tail == None then CreateSegment(s, batch, lsns, ok)
      else if NeedsRotation(cfg, s.store.active, PREFIX_BYTES + batch[|lsns|].record.BodyBytes(), aged) then
        if ok then SyncedAll(s).(phase := Writing(batch, lsns, Renaming)) else Fail(s, batch)
      else WriteRecord(f, s, batch, lsns, ok, partial)
    else if stage == Renaming && s.store.tail.Some? then if ok then CloseSegment(s, batch, lsns) else Fail(s, batch)
    else if stage == SyncingDir then
      if ok then s.(store := s.store.(renamed := false), phase := Writing(batch, lsns, Creating)) else Fail(s, batch)
    else if stage == Creating then CreateSegment(s, batch, lsns, ok)
    else if stage == WritingHeader && s.store.tail.Some? then StartSegment(f, s, batch, lsns, ok, partial)
    else s
  }

  /** The next file operation of the thread. */
  function DoIo(f: Format, cfg: WriterConfig, s: Writer, ok: bool, partial: nat, aged: bool): Writer {
    match s.phase
    case Writing(batch, lsns, stage) => DoWrite(f, cfg, s, batch, lsns, stage, ok, partial, aged)
    case Syncing(batch, lsns) =>
      if ok then SyncedAll(s).(phase := Fulfilling(batch, lsns), unsynced := false) else Fail(s, batch)
    case _ => s
  }

  /** One ticket gets its outcome, in batch order. */
  function DoFulfil(s: Writer): Writer {
    match s.phase
    case Fulfilling(batch, lsns) =>
      if batch == [] || |lsns| != |batch| then s.(phase := Idle)
      else
        var p, lsn := batch[0], lsns[0];
        s.(fulfilled := s.fulfilled + [Fulfilled(p.ticket, if p.durable then DurableAccepted(lsn) else RelaxedAccepted(lsn))],
           promised := if p.durable then s.promised + {(lsn, p.record)} else s.promised,
           phase := if |batch| == 1 then Idle else Fulfilling(batch[1..], lsns[1..]))
    case Failing(batch) =>
      if batch == [] then s
      else s.(fulfilled := s.fulfilled + [Fulfilled(batch[0].ticket, Refused)], phase := Failing(batch[1..]))
    case Rejecting(batch) =>
      if batch == [] then s.(phase := Idle)
      else s.(fulfilled := s.fulfilled + [Fulfilled(batch[0].ticket, Refused)], phase := Rejecting(batch[1..]))
    case _ => s
  }

  predicate Admits(cfg: WriterConfig, s: Writer, record: WalRecord, durable: bool) {
    && |record.payload| <= cfg.maxRecordBytes && (durable || cfg.allowRelaxed)
    && s.accepting && !s.stopping && !s.fault
    && |s.queue| < cfg.queueMaxRecords && s.queuedBytes + |record.payload| <= cfg.queueMaxBytes
  }

  function DoAppend(cfg: WriterConfig, s: Writer, record: WalRecord, durable: bool): Writer {
    if !Admits(cfg, s, record, durable) then s
    else s.(queue := s.queue + [Pending(record, durable, s.issued)], issued := s.issued + 1,
            queuedBytes := s.queuedBytes + |record.payload|)
  }

  /** The batch so far, if the thread may take one more record. */
  function Batch(phase: Phase): seq<Pending> {
    if phase.Collecting? then phase.batch else []
  }

  predicate CanTake(cfg: WriterConfig, s: Writer) {
    && (s.phase.Idle? || s.phase.Collecting?) && s.queue != [] && |Batch(s.phase)| < cfg.batchMaxRecords
    && (Batch(s.phase) == [] || PayloadBytes(Batch(s.phase)) + |s.queue[0].record.payload| <= cfg.batchMaxBytes)
  }

  function DoTake(s: Writer): Writer
    requires s.queue != []
  {
    var size := |s.queue[0].record.payload|;
    s.(phase := Collecting(Batch(s.phase) + [s.queue[0]]), queue := s.queue[1..],
       queuedBytes := if size <= s.queuedBytes then s.queuedBytes - size else 0)
  }

  // ---- Crashes and recovery ----

  /** What a crash may leave of the store: a cut of the active segment, no active segment at all if it was
      never synced, or the last closed segment under its active name again. */
  ghost predicate Crashed(f: Format, a: Store, b: Store, cut: nat, lost: bool, undone: bool) {
    if a.tail.Some? then
      if lost then a.active.synced == 0 && b == Store(a.parts, None, NO_FILE, false)
      else a.active.synced <= cut <= |a.active.bytes| && b == Store(a.parts, a.tail, LogFile(a.active.bytes[..cut], a.active.synced), false)
    else if undone then
      && a.renamed && a.parts != []
      && var part := a.parts[|a.parts| - 1];
         var bytes := SegmentBytes(f, part.first, part.records);
         b == Store(a.parts[..|a.parts| - 1], Some(part), LogFile(bytes, |bytes|), false)
    else b == a.(renamed := false)
  }

  function EntriesOf(store: Store): seq<Entry> {
    ClosedEntries(store.parts) + if store.tail.Some? then [store.tail.value.ToEntry(true)] else []
  }

  /** `dir`, listed as `listing`, holds exactly these segments, beside any other files. */
  ghost predicate OnDisk(f: Format, dir: Dir, listing: seq<string>, store: Store) {
    && multiset(Named(listing)) == multiset(NamesOf(EntriesOf(store)))
    && ClosedOnDisk(f, dir, ClosedEntries(store.parts), store.parts)
    && (store.tail.Some? ==> FileOf(dir, store.tail.value.ToEntry(true)) == SegmentFile(store.tail.value.first, true, store.active.bytes))
  }

  /** The store after the recovery scan: the active segment holds what was read of it. */
  function Recovered(store: Store, kept: seq<Byte>, n: nat): Store {
    if store.tail == None then store
    else
      var part := store.tail.value;
      var m := n - |RecordsOf(store.parts)|;
      store.(tail := Some(part.(records := if 0 <= m <= |part.records| then part.records[..m] else part.records)),
             active := LogFile(kept, if store.active.synced <= |kept| then store.active.synced else |kept|))
  }

  /** Start-up on what the scan left; an empty active segment gets its header again. */
  function Started(f: Format, s: Writer, store: Store, next: nat, opens: bool, ok: bool, partial: nat): Writer {
    var up := Writer([], 0, 0, true, false, false, Idle, next, false, store, [], next, s.safe, s.promised);
    if store.tail == None then up
    else if !opens then s.(store := store)
    else if store.active.bytes == [] then
      var headed := store.(active := Wrote(store.active, f.header(store.tail.value.first), ok, partial));
      if ok then up.(store := headed) else s.(store := headed)
    else up
  }

  ghost predicate RestartStep(f: Format, s: Writer, dir: Dir, listing: seq<string>, opens: bool, ok: bool, partial: nat, t: Writer) {
    var (read, dir') := ScanDirectory(f, dir, listing, 1, true);
    && s.phase.Down? && OnDisk(f, dir, listing, s.store)
    && if read.verdict.Failed? then t == s
       else
         var kept := if s.store.tail.Some? then FileOf(dir', s.store.tail.value.ToEntry(true)).bytes else [];
         t == Started(f, s, Recovered(s.store, kept, |read.records|), read.expected, opens, ok, partial)
  }

  ghost predicate Step(f: Format, cfg: WriterConfig, s: Writer, e: Event, t: Writer) {
    match e
    case Append(record, durable) => record.Encodable() && t == DoAppend(cfg, s, record, durable)
    case Take => CanTake(cfg, s) && t == DoTake(s)
    case Process =>
      && s.phase.Collecting? && s.phase.batch != []
      && t == s.(phase := if s.fault then Rejecting(s.phase.batch) else Writing(s.phase.batch, [], Ready))
    case Io(ok, partial, aged) => s.next < U64_MAX && t == DoIo(f, cfg, s, ok, partial, aged)
    case Fulfil => t == DoFulfil(s)
    case EnterFault => s.phase == Failing([]) && t == s.(fault := true, phase := Faulting)
    case SwapQueue => s.phase.Faulting? && t == s.(queue := [], queuedBytes := 0, phase := Rejecting(s.queue))
    case Stop => t == s.(stopping := true, accepting := false)
    case Exit(synced) =>
      && s.phase.Idle? && s.queue == [] && s.stopping
      && t == (if synced && s.store.tail.Some? && s.unsynced && !s.fault then SyncedAll(s) else s).(phase := Exited)
    case Crash(cut, lost, undone) =>
      && Crashed(f, s.store, t.store, cut, lost, undone)
      && t == s.(queue := [], queuedBytes := 0, accepting := false, phase := Down, store := t.store, unsynced := false)
    case Restart(dir, listing, opens, ok, partial) => RestartStep(f, s, dir, listing, opens, ok, partial, t)
  }

  ghost function Steps(f: Format, cfg: WriterConfig): (Writer, Event, Writer) -> bool {
    (s: Writer, e: Event, t: Writer) => Step(f, cfg, s, e, t)
  }

  ghost predicate IsRun(f: Format, cfg: WriterConfig, states: seq<Writer>, events: seq<Event>) {
    && |states| == |events| + 1
    && states[0] == FIRST_WRITER
    && forall i | 0 <= i < |events| :: Steps(f, cfg)(states[i], events[i], states[i + 1])
  }
}
