/** Crash durability over whole runs of the log writer: what was reported durable is never lost. */
module WalDurability {
  import opened Integers
  import opened Options
  import opened LeBytes
  import opened WalCodec
  import opened WalScan
  import opened WalDirectory
  import opened WalWriter
  import opened WalTickets
  import opened WalStore

  predicate Fits(f: Format, list: seq<Pending>) {
    forall i | 0 <= i < |list| :: list[i].record.Encodable() && list[i].record.BodyBytes() <= f.limit
  }

  /** Promises are records of the log below the safe mark. */
  ghost predicate PromisesKept(log: seq<WalRecord>, safe: nat, promised: set<(nat, WalRecord)>) {
    safe <= |log| && forall p | p in promised :: 1 <= p.0 <= safe && log[p.0 - 1] == p.1
  }

  /** Each LSN given belongs to its record. */
  ghost predicate GivenInLog(log: seq<WalRecord>, batch: seq<Pending>, lsns: seq<nat>) {
    |lsns| <= |batch| && forall i | 0 <= i < |lsns| :: 1 <= lsns[i] <= |log| && log[lsns[i] - 1] == batch[i].record
  }

  /** The active segment, if any, holds exactly its records. */
  ghost predicate Whole(f: Format, store: Store) {
    && !store.renamed
    && (store.tail.Some? ==> store.active.bytes == SegmentBytes(f, store.tail.value.first, store.tail.value.records))
  }

  /** The files before the next operation of a healthy writer. */
  ghost predicate StageOk(f: Format, store: Store, safe: nat, stage: Stage) {
    match stage
    case Ready => Whole(f, store)
    case Renaming => Whole(f, store) && store.tail.Some? && store.tail.value.records != [] && safe == |store.Log()|
    case SyncingDir => store.tail == None
    case Creating => store.tail == None && !store.renamed
    case WritingHeader => store.tail.Some? && store.tail.value.records == [] && store.active.bytes == []
  }

  ghost predicate Tidy(f: Format, s: Writer) {
    s.next == |s.store.Log()| + 1 && StageOk(f, s.store, s.safe, if s.phase.Writing? then s.phase.stage else Ready)
  }

  ghost predicate Sturdy(f: Format, s: Writer) {
    && Stored(f)(s.store, s.safe)
    && PromisesKept(s.store.Log(), s.safe, s.promised)
    && Fits(f, Held(s.phase)) && Fits(f, s.queue)
    && GivenInLog(s.store.Log(), Held(s.phase), Given(s.phase))
    && (s.phase.Fulfilling? && AnyDurable(s.phase.batch) ==> s.safe == |s.store.Log()|)
    && (!s.phase.Down? && !Broken(s) ==> Tidy(f, s))
    && (s.phase.Down? ==> !s.store.renamed)
  }

  /** The same as a value. */
  ghost function Sturdies(f: Format): Writer -> bool {
    (s: Writer) => Sturdy(f, s)
  }

  // ---- File operations ----

  lemma SyncedStore(f: Format, s: Writer)
    requires Stored(f)(s.store, s.safe) && Whole(f, s.store)
    ensures var t := SyncedAll(s);
            Stored(f)(t.store, t.safe) && Whole(f, t.store) && t.store.Log() == s.store.Log() && t.safe == |t.store.Log()|
  {
    var t := SyncedAll(s);
    if t.store.tail.Some? {
      FullTailOk(f, t.store.tail.value);
      assert t.safe - |RecordsOf(t.store.parts)| == |t.store.tail.value.records|;
    }
  }

  lemma CreatedStore(f: Format, s: Writer, batch: seq<Pending>, lsns: seq<nat>, ok: bool)
    requires Stored(f)(s.store, s.safe) && s.store.tail == None && !s.store.renamed && s.next == |s.store.Log()| + 1
    ensures var t := CreateSegment(s, batch, lsns, ok);
            Stored(f)(t.store, t.safe) && t.store.Log() == s.store.Log()
  {
    var t := CreateSegment(s, batch, lsns, ok);
    assert t.store.Log() == s.store.Log();
  }

  lemma WrotePrefix(file: LogFile, data: seq<Byte>, ok: bool, partial: nat, all: seq<Byte>)
    requires all == file.bytes + data
    ensures file.bytes <= Wrote(file, data, ok, partial).bytes <= all
    ensures ok ==> Wrote(file, data, ok, partial).bytes == all
  {
  }

  lemma HeadedStore(f: Format, store: Store, safe: nat, ok: bool, partial: nat)
    requires Stored(f)(store, safe) && store.tail.Some? && store.tail.value.records == [] && store.active.bytes == []
    ensures var t := store.(active := Wrote(store.active, f.header(store.tail.value.first), ok, partial));
            Stored(f)(t, safe) && t.Log() == store.Log() && (ok ==> Whole(f, t))
  {
    var part := store.tail.value;
    WrotePrefix(store.active, f.header(part.first), ok, partial, SegmentBytes(f, part.first, part.records));
    assert part.records[..0] == [];
  }

  lemma ClosedStore(f: Format, s: Writer, batch: seq<Pending>, lsns: seq<nat>)
    requires Stored(f)(s.store, s.safe) && s.store.tail.Some? && s.store.tail.value.records != [] && s.safe == |s.store.Log()|
    ensures var t := CloseSegment(s, batch, lsns);
            Stored(f)(t.store, t.safe) && t.store.Log() == s.store.Log()
  {
    ChainAppend(s.store.parts, 1, s.store.tail.value);
    ChainFirsts(s.store.parts, 1);
    assert CloseSegment(s, batch, lsns).store.Log() == s.store.Log();
  }

  lemma TailGrows(f: Format, part: Part, active: LogFile, safe: nat, r: WalRecord, active': LogFile)
    requires TailOk(f, part, active, safe)
    requires active.bytes <= active'.bytes <= SegmentBytes(f, part.first, part.records + [r]) && active'.synced == active.synced
    ensures TailOk(f, part.(records := part.records + [r]), active', safe)
  {
    assert (part.records + [r])[..safe] == part.records[..safe];
  }

  lemma RecordedStore(f: Format, s: Writer, batch: seq<Pending>, lsns: seq<nat>, ok: bool, partial: nat)
    requires Stored(f)(s.store, s.safe) && Whole(f, s.store) && s.store.tail.Some? && |lsns| < |batch|
    requires s.next == |s.store.Log()| + 1 < U64_MAX && Fits(f, batch)
    ensures var t := WriteRecord(f, s, batch, lsns, ok, partial);
            && Stored(f)(t.store, t.safe) && t.store.Log() == s.store.Log() + [batch[|lsns|].record]
            && (ok ==> Whole(f, t.store))
  {
    var t, part, r := WriteRecord(f, s, batch, lsns, ok, partial), s.store.tail.value, batch[|lsns|].record;
    EncodeAppend(f, part.first, part.records, r);
    assert SegmentBytes(f, part.first, part.records + [r]) == s.store.active.bytes + f.encode(s.next, r);
    WrotePrefix(s.store.active, f.encode(s.next, r), ok, partial, SegmentBytes(f, part.first, part.records + [r]));
    TailGrows(f, part, s.store.active, s.safe - |RecordsOf(s.store.parts)|, r, t.store.active);
    assert t.store.Log() == s.store.Log() + [r];
  }

  lemma GivenOneMore(log: seq<WalRecord>, batch: seq<Pending>, lsns: seq<nat>)
    requires GivenInLog(log, batch, lsns) && |lsns| < |batch|
    ensures GivenInLog(log + [batch[|lsns|].record], batch, lsns + [|log| + 1])
  {
  }

  lemma PromisesGrow(log: seq<WalRecord>, safe: nat, promised: set<(nat, WalRecord)>, r: WalRecord)
    requires PromisesKept(log, safe, promised)
    ensures PromisesKept(log + [r], safe, promised) && PromisesKept(log, |log|, promised)
  {
  }

  /** What one more record leaves for the answers to come. */
  lemma RecordBooks(f: Format, s: Writer, batch: seq<Pending>, lsns: seq<nat>, ok: bool, partial: nat)
    requires GivenInLog(s.store.Log(), batch, lsns) && PromisesKept(s.store.Log(), s.safe, s.promised)
    requires s.store.tail.Some? && |lsns| < |batch| && s.next == |s.store.Log()| + 1
    requires var t := WriteRecord(f, s, batch, lsns, ok, partial); t.store.Log() == s.store.Log() + [batch[|lsns|].record]
    ensures var t := WriteRecord(f, s, batch, lsns, ok, partial);
            && t.promised == s.promised && t.safe == s.safe && t.queue == s.queue && t.fault == s.fault && !t.phase.Down?
            && PromisesKept(t.store.Log(), t.safe, t.promised)
            && Held(t.phase) == batch && GivenInLog(t.store.Log(), batch, Given(t.phase))
            && (t.phase.Fulfilling? ==> !AnyDurable(batch))
            && (ok ==> t.next == |t.store.Log()| + 1 && (t.phase.Writing? ==> t.phase.stage == Ready))
            && (!ok ==> t.phase.Failing?)
  {
    GivenOneMore(s.store.Log(), batch, lsns);
    PromisesGrow(s.store.Log(), s.safe, s.promised, batch[|lsns|].record);
  }

  lemma RecordKeeps(f: Format, s: Writer, ok: bool, partial: nat)
    requires Sturdies(f)(s) && !Broken(s) && s.phase.Writing? && s.phase.stage == Ready && s.store.tail.Some?
    requires |s.phase.lsns| < |s.phase.batch| && s.next < U64_MAX
    ensures Sturdies(f)(WriteRecord(f, s, s.phase.batch, s.phase.lsns, ok, partial))
  {
    var batch, lsns := s.phase.batch, s.phase.lsns;
    RecordedStore(f, s, batch, lsns, ok, partial);
    RecordBooks(f, s, batch, lsns, ok, partial);
    RecordSturdy(f, s, batch, WriteRecord(f, s, batch, lsns, ok, partial));
  }

  lemma RecordSturdy(f: Format, s: Writer, batch: seq<Pending>, t: Writer)
    requires Fits(f, batch) && Fits(f, s.queue) && Stored(f)(t.store, t.safe) && PromisesKept(t.store.Log(), t.safe, t.promised)
    requires t.queue == s.queue && !t.phase.Down? && Held(t.phase) == batch && GivenInLog(t.store.Log(), batch, Given(t.phase))
    requires t.phase.Fulfilling? ==> !AnyDurable(batch)
    requires t.phase.Failing? || (Whole(f, t.store) && t.next == |t.store.Log()| + 1 && (t.phase.Writing? ==> t.phase.stage == Ready))
    ensures Sturdies(f)(t)
  {
  }

  lemma SyncKeeps(f: Format, s: Writer, phase: Phase)
    requires Sturdies(f)(s) && Whole(f, s.store) && !s.phase.Down? && !Broken(s)
    requires Held(phase) == Held(s.phase) && Given(phase) == Given(s.phase)
    requires phase.Fulfilling? || phase.Exited? || (phase.Writing? && phase.stage == Renaming && s.store.tail.Some? && s.store.tail.value.records != [])
    ensures Sturdies(f)(SyncedAll(s).(phase := phase)) && Sturdies(f)(SyncedAll(s).(phase := phase, unsynced := false))
  {
    SyncedStore(f, s);
    if s.store.Log() != [] {
      PromisesGrow(s.store.Log(), s.safe, s.promised, s.store.Log()[0]);
    }
  }

  lemma RotatesWithRecords(f: SoundFormat, cfg: WriterConfig, store: Store, size: nat, aged: bool)
    requires Whole(f, store) && store.tail.Some? && NeedsRotation(cfg, store.active, size, aged)
    ensures store.tail.value.records != []
  {
  }

  /** The batch keeps its LSNs while the log stays as it is. */
  lemma StageKeeps(f: Format, s: Writer, store: Store, phase: Phase, unsynced: bool)
    requires Sturdies(f)(s) && !Broken(s) && s.phase.Writing? && Stored(f)(store, s.safe) && store.Log() == s.store.Log()
    requires phase == Failing(s.phase.batch)
             || (phase.Writing? && phase.batch == s.phase.batch && phase.lsns == s.phase.lsns && StageOk(f, store, s.safe, phase.stage))
    ensures Sturdies(f)(s.(store := store, phase := phase, unsynced := unsynced))
  {
  }

  lemma ReadyKeeps(f: SoundFormat, cfg: WriterConfig, s: Writer, ok: bool, partial: nat, aged: bool)
    requires Sturdies(f)(s) && !Broken(s) && s.phase.Writing? && s.next < U64_MAX && s.phase.stage == Ready
    ensures Sturdies(f)(DoIo(f, cfg, s, ok, partial, aged))
  {
    var batch, lsns := s.phase.batch, s.phase.lsns;
    if |lsns| < |batch| {
      if s.store.tail == None {
        CreateKeeps(f, s, ok);
      } else if NeedsRotation(cfg, s.store.active, PREFIX_BYTES + batch[|lsns|].record.BodyBytes(), aged) {
        RotatesWithRecords(f, cfg, s.store, PREFIX_BYTES + batch[|lsns|].record.BodyBytes(), aged);
        SyncKeeps(f, s, Writing(batch, lsns, Renaming));
        StageKeeps(f, s, s.store, Failing(batch), s.unsynced);
      } else {
        RecordKeeps(f, s, ok, partial);
      }
    }
  }

  lemma CreateKeeps(f: Format, s: Writer, ok: bool)
    requires Sturdies(f)(s) && !Broken(s) && s.phase.Writing? && s.store.tail == None && !s.store.renamed
    ensures Sturdies(f)(CreateSegment(s, s.phase.batch, s.phase.lsns, ok))
  {
    CreatedStore(f, s, s.phase.batch, s.phase.lsns, ok);
    var t := CreateSegment(s, s.phase.batch, s.phase.lsns, ok);
    StageKeeps(f, s, t.store, t.phase, t.unsynced);
  }

  lemma HeaderKeeps(f: Format, s: Writer, ok: bool, partial: nat)
    requires Sturdies(f)(s) && !Broken(s) && s.phase.Writing? && s.phase.stage == WritingHeader && s.store.tail.Some?
    ensures Sturdies(f)(StartSegment(f, s, s.phase.batch, s.phase.lsns, ok, partial))
  {
    HeadedStore(f, s.store, s.safe, ok, partial);
    var t := StartSegment(f, s, s.phase.batch, s.phase.lsns, ok, partial);
    StageKeeps(f, s, t.store, t.phase, t.unsynced);
  }

  lemma CloseKeeps(f: Format, s: Writer)
    requires Sturdies(f)(s) && !Broken(s) && s.phase.Writing? && s.phase.stage == Renaming && s.store.tail.Some?
    ensures Sturdies(f)(CloseSegment(s, s.phase.batch, s.phase.lsns))
  {
    ClosedStore(f, s, s.phase.batch, s.phase.lsns);
    var t := CloseSegment(s, s.phase.batch, s.phase.lsns);
    StageKeeps(f, s, t.store, t.phase, t.unsynced);
  }

  lemma DirSyncKeeps(f: Format, s: Writer)
    requires Sturdies(f)(s) && !Broken(s) && s.phase.Writing? && s.phase.stage == SyncingDir
    ensures Sturdies(f)(s.(store := s.store.(renamed := false), phase := Writing(s.phase.batch, s.phase.lsns, Creating)))
  {
    var store := s.store.(renamed := false);
    assert store.Log() == s.store.Log();
    assert Stored(f)(store, s.safe);
    StageKeeps(f, s, store, Writing(s.phase.batch, s.phase.lsns, Creating), s.unsynced);
  }

  lemma WritingKeeps(f: SoundFormat, cfg: WriterConfig, s: Writer, ok: bool, partial: nat, aged: bool)
    requires Sturdies(f)(s) && !Broken(s) && s.phase.Writing? && s.next < U64_MAX
    ensures Sturdies(f)(DoIo(f, cfg, s, ok, partial, aged))
  {
    StageKeeps(f, s, s.store, Failing(s.phase.batch), s.unsynced);
    match s.phase.stage
    case Ready => ReadyKeeps(f, cfg, s, ok, partial, aged);
    case Renaming => CloseKeeps(f, s);
    case SyncingDir => DirSyncKeeps(f, s);
    case Creating => CreateKeeps(f, s, ok);
    case WritingHeader => HeaderKeeps(f, s, ok, partial);
  }

  // ---- The other events ----

  lemma PromiseOne(log: seq<WalRecord>, promised: set<(nat, WalRecord)>, batch: seq<Pending>, lsns: seq<nat>)
    requires PromisesKept(log, |log|, promised) && GivenInLog(log, batch, lsns) && lsns != []
    ensures PromisesKept(log, |log|, promised + {(lsns[0], batch[0].record)})
  {
  }

  lemma RestOfBatch(f: Format, log: seq<WalRecord>, batch: seq<Pending>, lsns: seq<nat>)
    requires Fits(f, batch) && GivenInLog(log, batch, lsns) && batch != []
    ensures Fits(f, batch[1..]) && (lsns != [] ==> GivenInLog(log, batch[1..], lsns[1..]))
    ensures AnyDurable(batch[1..]) || batch[0].durable ==> AnyDurable(batch)
  {
    if AnyDurable(batch[1..]) {
      var i :| 0 <= i < |batch[1..]| && batch[1..][i].durable;
      assert batch[i + 1].durable;
    }
  }

  /** Nothing held, or nothing to be answered: no ticket gets an answer. */
  lemma NoneKeeps(f: Format, s: Writer)
    requires Sturdies(f)(s) && TicketsOk(s) && Held(s.phase) == []
    ensures Sturdies(f)(DoFulfil(s))
  {
  }

  lemma RefusalKeeps(f: Format, s: Writer)
    requires Sturdies(f)(s) && (s.phase.Failing? || s.phase.Rejecting?) && s.phase.batch != []
    ensures Sturdies(f)(DoFulfil(s))
  {
    RestOfBatch(f, s.store.Log(), s.phase.batch, []);
  }

  lemma FulfilKeeps(f: Format, s: Writer)
    requires Sturdies(f)(s) && TicketsOk(s)
    ensures Sturdies(f)(DoFulfil(s))
  {
    if Held(s.phase) == [] {
      NoneKeeps(f, s);
    } else if s.phase.Failing? || s.phase.Rejecting? {
      RefusalKeeps(f, s);
    } else if s.phase.Fulfilling? {
      SuccessKeeps(f, s);
    }
  }

  lemma SuccessKeeps(f: Format, s: Writer)
    requires Sturdies(f)(s) && s.phase.Fulfilling? && s.phase.lsns != [] && |s.phase.lsns| == |s.phase.batch| && !s.fault
    ensures Sturdies(f)(DoFulfil(s))
  {
    RestOfBatch(f, s.store.Log(), s.phase.batch, s.phase.lsns);
    SuccessPromises(f, s);
    SuccessSturdy(f, s, DoFulfil(s));
  }

  /** A promise is made only of a record below the safe mark. */
  lemma SuccessPromises(f: Format, s: Writer)
    requires Sturdies(f)(s) && s.phase.Fulfilling? && s.phase.lsns != [] && |s.phase.lsns| == |s.phase.batch|
    ensures PromisesKept(s.store.Log(), s.safe, DoFulfil(s).promised)
  {
    if s.phase.batch[0].durable {
      PromiseOne(s.store.Log(), s.promised, s.phase.batch, s.phase.lsns);
    }
  }

  lemma SuccessSturdy(f: Format, s: Writer, t: Writer)
    requires Sturdies(f)(s) && !s.fault && s.phase.Fulfilling? && s.phase.batch != [] && t == s.(fulfilled := t.fulfilled, promised := t.promised, phase := t.phase)
    requires PromisesKept(s.store.Log(), s.safe, t.promised)
    requires t.phase == Idle || (t.phase.Fulfilling? && t.phase.batch == s.phase.batch[1..])
    requires Fits(f, Held(t.phase)) && GivenInLog(s.store.Log(), Held(t.phase), Given(t.phase))
    requires AnyDurable(s.phase.batch[1..]) ==> AnyDurable(s.phase.batch)
    ensures Sturdies(f)(t)
  {
  }

  lemma TakeKeeps(f: Format, cfg: WriterConfig, s: Writer)
    requires Sturdies(f)(s) && CanTake(cfg, s)
    ensures Sturdies(f)(DoTake(s))
  {
    assert Held(s.phase) == Batch(s.phase);
  }

  lemma AppendKeeps(f: Format, cfg: WriterConfig, s: Writer, record: WalRecord, durable: bool)
    requires Sturdies(f)(s) && record.Encodable() && (cfg.Takes(record) ==> record.BodyBytes() <= f.limit)
    ensures Sturdies(f)(DoAppend(cfg, s, record, durable))
  {
  }

  lemma IoKeeps(f: SoundFormat, cfg: WriterConfig, s: Writer, ok: bool, partial: nat, aged: bool)
    requires Sturdies(f)(s) && TicketsOk(s) && s.next < U64_MAX
    ensures Sturdies(f)(DoIo(f, cfg, s, ok, partial, aged))
  {
    if s.phase.Writing? && !Broken(s) {
      WritingKeeps(f, cfg, s, ok, partial, aged);
    } else if s.phase.Syncing? && !Broken(s) {
      SyncKeeps(f, s, Fulfilling(s.phase.batch, s.phase.lsns));
    }
  }

  lemma CrashKeeps(f: SoundFormat, cfg: WriterConfig, s: Writer, cut: nat, lost: bool, undone: bool, t: Writer)
    requires Sturdies(f)(s) && Step(f, cfg, s, Crash(cut, lost, undone), t)
    ensures Sturdies(f)(t)
  {
    CrashKeepsStore(f, s.store, t.store, cut, lost, undone, s.safe);
    PromisesMove(s.store.Log(), t.store.Log(), s.safe, s.promised);
  }

  lemma PromisesMove(a: seq<WalRecord>, b: seq<WalRecord>, safe: nat, promised: set<(nat, WalRecord)>)
    requires PromisesKept(a, safe, promised) && safe <= |b| && b[..safe] == a[..safe]
    ensures PromisesKept(b, safe, promised)
  {
    forall p | p in promised
      ensures 1 <= p.0 <= safe && b[p.0 - 1] == p.1
    {
      assert b[p.0 - 1] == b[..safe][p.0 - 1] == a[..safe][p.0 - 1];
    }
  }

  /** Recovery leaves a store with the log cut to what was read. */
  lemma RecoveredStore(f: SoundFormat, store: Store, safe: nat)
    requires Stored(f)(store, safe)
    ensures var n := Recoverable(f, store);
            var t := Recovered(store, KeptBytes(f, store), n);
            && Stored(f)(t, safe) && t.Log() == store.Log()[..n] && safe <= n
            && (store.tail.Some? ==>
                  if t.active.bytes == [] then t.tail.value.records == []
                  else t.active.bytes == SegmentBytes(f, t.tail.value.first, t.tail.value.records))
  {
    RecoverableBounds(f, store, safe);
    if store.tail.Some? {
      RecoveredTail(f, store, safe);
    }
  }

  /** A tail cut to its first `m` records, all of which are on disk. */
  lemma CutTailOk(f: Format, part: Part, kept: seq<Byte>, synced: nat, active: LogFile, m: nat, k: nat)
    requires k <= m <= |part.records| && TailOk(f, part, active, k) && synced == (if active.synced <= |kept| then active.synced else |kept|)
    requires kept == SegmentBytes(f, part.first, part.records[..m]) || (kept == [] && k == 0)
    ensures TailOk(f, part.(records := part.records[..m]), LogFile(kept, synced), k)
  {
    assert part.records[..m][..k] == part.records[..k];
    EncodePrefix(f, part.first, part.records[..m], k);
  }

  lemma CutStoreOk(f: Format, store: Store, safe: nat, t: Store, n: nat)
    requires Stored(f)(store, safe) && store.tail.Some? && |RecordsOf(store.parts)| <= safe <= n <= |store.Log()|
    requires var m := n - |RecordsOf(store.parts)|;
             && m <= |store.tail.value.records|
             && t == store.(tail := Some(store.tail.value.(records := store.tail.value.records[..m])), active := t.active)
             && TailOk(f, t.tail.value, t.active, safe - |RecordsOf(store.parts)|)
    ensures Stored(f)(t, safe) && t.Log() == store.Log()[..n]
  {
    LogPrefix(RecordsOf(store.parts), store.tail.value.records, n);
  }

  /** What is left of the active segment: nothing, or its header and its first records. */
  lemma KeptTail(f: Format, store: Store, m: nat)
    requires store.tail.Some? && m == Surviving(store.tail.value.records, |store.active.bytes|, f.limit)
    ensures KeptBytes(f, store) == (if |store.active.bytes| < SEGMENT_HEADER_BYTES then []
                                    else SegmentBytes(f, store.tail.value.first, store.tail.value.records[..m]))
    ensures |store.active.bytes| < SEGMENT_HEADER_BYTES ==> m == 0
  {
  }

  lemma RecoveredTail(f: SoundFormat, store: Store, safe: nat)
    requires Stored(f)(store, safe) && store.tail.Some?
    ensures var n := Recoverable(f, store);
            var t := Recovered(store, KeptBytes(f, store), n);
            && Stored(f)(t, safe) && t.Log() == store.Log()[..n]
            && if t.active.bytes == [] then t.tail.value.records == []
               else t.active.bytes == SegmentBytes(f, t.tail.value.first, t.tail.value.records)
  {
    var closed, part, n := |RecordsOf(store.parts)|, store.tail.value, Recoverable(f, store);
    var m, kept := n - closed, KeptBytes(f, store);
    var t := Recovered(store, kept, n);
    RecoverableBounds(f, store, safe);
    TailIsOk(f, store, safe);
    KeptTail(f, store, m);
    assert part.records[..0] == [];
    CutTailOk(f, part, kept, t.active.synced, store.active, m, safe - closed);
    CutStoreOk(f, store, safe, t, n);
  }

  lemma TailIsOk(f: Format, store: Store, safe: nat)
    requires Stored(f)(store, safe) && store.tail.Some?
    ensures |RecordsOf(store.parts)| <= safe && TailOk(f, store.tail.value, store.active, safe - |RecordsOf(store.parts)|)
  {
  }

  /** What a restart comes to: it never finds the directory damaged. */
  lemma RestartOutcome(f: SoundFormat, s: Writer, dir: Dir, listing: seq<string>, opens: bool, ok: bool, partial: nat, t: Writer)
    requires Stored(f)(s.store, s.safe) && RestartStep(f, s, dir, listing, opens, ok, partial, t)
    ensures var n := Recoverable(f, s.store);
            t == Started(f, s, Recovered(s.store, KeptBytes(f, s.store), n), 1 + n, opens, ok, partial)
  {
    StoreReadsBack(f, s.store, s.safe, dir, listing);
    assert s.store.tail == None ==> KeptBytes(f, s.store) == [];
  }

  lemma RestartKeeps(f: SoundFormat, s: Writer, dir: Dir, listing: seq<string>, opens: bool, ok: bool, partial: nat, t: Writer)
    requires Sturdies(f)(s) && RestartStep(f, s, dir, listing, opens, ok, partial, t)
    ensures Sturdies(f)(t)
  {
    RestartOutcome(f, s, dir, listing, opens, ok, partial, t);
    RestartedKeeps(f, s, opens, ok, partial);
  }

  lemma RestartedKeeps(f: SoundFormat, s: Writer, opens: bool, ok: bool, partial: nat)
    requires Sturdies(f)(s) && s.phase.Down?
    ensures var n := Recoverable(f, s.store);
            Sturdies(f)(Started(f, s, Recovered(s.store, KeptBytes(f, s.store), n), 1 + n, opens, ok, partial))
  {
    var n := Recoverable(f, s.store);
    RecoveredStore(f, s.store, s.safe);
    var store := Recovered(s.store, KeptBytes(f, s.store), n);
    PromisesMove(s.store.Log(), store.Log(), s.safe, s.promised);
    StartKeeps(f, s, store, 1 + n, opens, ok, partial);
  }

  lemma StartKeeps(f: Format, s: Writer, store: Store, next: nat, opens: bool, ok: bool, partial: nat)
    requires s.phase.Down? && Stored(f)(store, s.safe) && PromisesKept(store.Log(), s.safe, s.promised) && Fits(f, s.queue)
    requires next == |store.Log()| + 1 && !store.renamed
    requires store.tail.Some? ==>
               if store.active.bytes == [] then store.tail.value.records == []
               else store.active.bytes == SegmentBytes(f, store.tail.value.first, store.tail.value.records)
    ensures Sturdies(f)(Started(f, s, store, next, opens, ok, partial))
    ensures Started(f, s, store, next, opens, ok, partial).store.Log() == store.Log()
    ensures !Started(f, s, store, next, opens, ok, partial).phase.Down? ==> Started(f, s, store, next, opens, ok, partial).next == next
  {
    if store.tail.Some? && store.active.bytes == [] {
      HeadedStore(f, store, s.safe, ok, partial);
    }
  }

  /** Steps that touch neither the files nor the promises. */
  lemma QuietKeeps(f: Format, cfg: WriterConfig, s: Writer, e: Event, t: Writer)
    requires Sturdies(f)(s) && TicketsOk(s) && Steps(f, cfg)(s, e, t) && (e.Process? || e.EnterFault? || e.SwapQueue? || e.Stop?)
    ensures Sturdies(f)(t)
  {
  }

  lemma ExitKeeps(f: Format, cfg: WriterConfig, s: Writer, e: Event, t: Writer)
    requires Sturdies(f)(s) && TicketsOk(s) && Steps(f, cfg)(s, e, t) && e.Exit?
    ensures Sturdies(f)(t)
  {
    if !Broken(s) {
      SyncKeeps(f, s, Exited);
    }
  }

  /** The steps that files, batches and promises take part in. */
  lemma BusyKeeps(f: SoundFormat, cfg: WriterConfig, s: Writer, e: Event, t: Writer)
    requires Sturdies(f)(s) && TicketsOk(s) && Steps(f, cfg)(s, e, t) && (e.Append? || e.Take? || e.Io? || e.Fulfil?)
    requires e.Append? && cfg.Takes(e.record) ==> e.record.BodyBytes() <= f.limit
    ensures Sturdies(f)(t)
  {
    match e
    case Append(record, durable) => AppendKeeps(f, cfg, s, record, durable);
    case Take => TakeKeeps(f, cfg, s);
    case Io(ok, partial, aged) => IoKeeps(f, cfg, s, ok, partial, aged);
    case Fulfil => FulfilKeeps(f, s);
  }

  lemma StepKeepsSturdy(f: SoundFormat, cfg: WriterConfig, s: Writer, e: Event, t: Writer)
    requires Sturdies(f)(s) && TicketsOk(s) && Steps(f, cfg)(s, e, t)
    requires e.Append? && cfg.Takes(e.record) ==> e.record.BodyBytes() <= f.limit
    ensures Sturdies(f)(t)
  {
    if e.Append? || e.Take? || e.Io? || e.Fulfil? {
      BusyKeeps(f, cfg, s, e, t);
    } else if e.Crash? {
      CrashKeeps(f, cfg, s, e.cut, e.lost, e.undone, t);
    } else if e.Restart? {
      RestartKeeps(f, s, e.dir, e.listing, e.opens, e.ok, e.partial, t);
    } else if e.Exit? {
      ExitKeeps(f, cfg, s, e, t);
    } else {
      QuietKeeps(f, cfg, s, e, t);
    }
  }

  /** Every record that is handed in and that the writer may take fits the limit of the reader with its header and checksum. */
  predicate AllAppendsFit(f: Format, cfg: WriterConfig, events: seq<Event>) {
    forall i | 0 <= i < |events| && events[i].Append? && cfg.Takes(events[i].record) :: events[i].record.BodyBytes() <= f.limit
  }

  lemma {:induction false} RunKeepsSturdy(f: SoundFormat, cfg: WriterConfig, states: seq<Writer>, events: seq<Event>)
    requires AllAppendsFit(f, cfg, events) && IsRun(f, cfg, states, events)
    ensures Sturdies(f)(states[|events|])
  {
    if events == [] {
      assert FIRST_WRITER.store.Log() == [];
    } else {
      var n := |events| - 1;
      RunKeepsSturdy(f, cfg, states[..n + 1], events[..n]);
      RunKeepsTickets(f, cfg, states[..n + 1], events[..n]);
      StepKeepsSturdy(f, cfg, states[n], events[n], states[n + 1]);
    }
  }

  /** Crash durability. In every run, with any number of earlier crashes, and for every crash now: the scan of
      the directory, listed in any order, succeeds; it returns a prefix of the records written, with the same
      contents and LSNs 1, 2, ...; every record ever reported durable is among them under its LSN; and a restart
      goes on with the next LSN. */
  lemma DurableRecordsSurvive(f: SoundFormat, cfg: WriterConfig, states: seq<Writer>, events: seq<Event>,
                              cut: nat, lost: bool, undone: bool, t: Writer, dir: Dir, listing: seq<string>)
    requires AllAppendsFit(f, cfg, events) && IsRun(f, cfg, states, events)
    requires Steps(f, cfg)(states[|events|], Crash(cut, lost, undone), t) && OnDisk(f, dir, listing, t.store)
    ensures var read := ScanDirectory(f, dir, listing, 1, true).0;
            && read.verdict == Clean && read.expected == 1 + |read.records|
            && (forall i | 0 <= i < |read.records| :: i < |t.store.Log()| && read.records[i] == Scanned(1 + i, t.store.Log()[i]))
            && (forall p | p in states[|events|].promised :: 1 <= p.0 <= |read.records| && read.records[p.0 - 1] == Scanned(p.0, p.1))
  {
    RunKeepsSturdy(f, cfg, states, events);
    CrashReads(f, cfg, states[|events|], cut, lost, undone, t, dir, listing);
  }

  lemma CrashReads(f: SoundFormat, cfg: WriterConfig, s: Writer, cut: nat, lost: bool, undone: bool, t: Writer, dir: Dir, listing: seq<string>)
    requires Sturdies(f)(s) && Step(f, cfg, s, Crash(cut, lost, undone), t) && OnDisk(f, dir, listing, t.store)
    ensures var read := ScanDirectory(f, dir, listing, 1, true).0;
            && read.verdict == Clean && read.expected == 1 + |read.records|
            && (forall i | 0 <= i < |read.records| :: i < |t.store.Log()| && read.records[i] == Scanned(1 + i, t.store.Log()[i]))
            && (forall p | p in s.promised :: 1 <= p.0 <= |read.records| && read.records[p.0 - 1] == Scanned(p.0, p.1))
  {
    CrashKeeps(f, cfg, s, cut, lost, undone, t);
    var n := Recoverable(f, t.store);
    StoreReadsBack(f, t.store, t.safe, dir, listing);
    PromisesRead(t.store.Log(), n, t.safe, s.promised);
  }

  lemma PromisesRead(log: seq<WalRecord>, n: nat, safe: nat, promised: set<(nat, WalRecord)>)
    requires PromisesKept(log, safe, promised) && safe <= n <= |log|
    ensures forall i | 0 <= i < n :: Numbered(1, log[..n])[i] == Scanned(1 + i, log[i])
    ensures forall p | p in promised :: 1 <= p.0 <= n && Numbered(1, log[..n])[p.0 - 1] == Scanned(p.0, p.1)
  {
  }
}
