/** What has been synced when the writer answers or closes a segment: in every run, whatever is appended. */
module WalSync {
  import opened WalCodec
  import opened WalDirectory
  import opened WalWriter
  import opened WalTickets

  /** No byte of the active segment is left to a crash. */
  predicate SyncedUp(store: Store) {
    store.active.synced == |store.active.bytes|
  }

  /** A batch with a durable record is answered, and a segment renamed, only with everything synced. */
  predicate SyncOk(s: Writer) {
    && (s.phase.Fulfilling? && AnyDurable(s.phase.batch) ==> SyncedUp(s.store))
    && (s.phase.Writing? && s.phase.stage == Renaming ==> SyncedUp(s.store))
  }

  lemma WriteKeepsSync(f: Format, cfg: WriterConfig, s: Writer, batch: seq<Pending>, lsns: seq<nat>, stage: Stage,
                       ok: bool, partial: nat, aged: bool)
    requires s.phase == Writing(batch, lsns, stage) && SyncOk(s)
    ensures SyncOk(DoWrite(f, cfg, s, batch, lsns, stage, ok, partial, aged))
  {
    if stage == Ready {
      ReadyKeepsSync(f, cfg, s, batch, lsns, ok, partial, aged);
    }
  }

  lemma ReadyKeepsSync(f: Format, cfg: WriterConfig, s: Writer, batch: seq<Pending>, lsns: seq<nat>, ok: bool, partial: nat, aged: bool)
    requires s.phase == Writing(batch, lsns, Ready) && SyncOk(s)
    ensures SyncOk(DoWrite(f, cfg, s, batch, lsns, Ready, ok, partial, aged))
  {
  }

  lemma IoKeepsSync(f: Format, cfg: WriterConfig, s: Writer, ok: bool, partial: nat, aged: bool)
    requires SyncOk(s)
    ensures SyncOk(DoIo(f, cfg, s, ok, partial, aged))
  {
    if s.phase.Writing? {
      WriteKeepsSync(f, cfg, s, s.phase.batch, s.phase.lsns, s.phase.stage, ok, partial, aged);
    }
  }

  lemma FulfilKeepsSync(s: Writer)
    requires SyncOk(s)
    ensures SyncOk(DoFulfil(s))
  {
    var t := DoFulfil(s);
    if s.phase.Fulfilling? && t.phase.Fulfilling? && AnyDurable(t.phase.batch) {
      var i :| 0 <= i < |t.phase.batch| && t.phase.batch[i].durable;
      assert s.phase.batch[i + 1] == t.phase.batch[i];
    }
  }

  lemma RestartKeepsSync(f: Format, s: Writer, dir: Dir, listing: seq<string>, opens: bool, ok: bool, partial: nat, t: Writer)
    requires SyncOk(s) && RestartStep(f, s, dir, listing, opens, ok, partial, t)
    ensures SyncOk(t)
  {
    assert s.phase.Down?;
    assert t.phase.Down? || t.phase.Idle?;
  }

  lemma StepKeepsSync(f: Format, cfg: WriterConfig, s: Writer, e: Event, t: Writer)
    requires SyncOk(s) && Steps(f, cfg)(s, e, t)
    ensures SyncOk(t)
  {
    match e
    case Io(ok, partial, aged) => IoKeepsSync(f, cfg, s, ok, partial, aged);
    case Fulfil => FulfilKeepsSync(s);
    case Restart(dir, listing, opens, ok, partial) => RestartKeepsSync(f, s, dir, listing, opens, ok, partial, t);
    case Process =>
      assert t.phase.Rejecting? || (t.phase.Writing? && t.phase.stage == Ready);
    case _ =>
  }

  lemma {:induction false} RunKeepsSync(f: Format, cfg: WriterConfig, states: seq<Writer>, events: seq<Event>)
    requires IsRun(f, cfg, states, events)
    ensures SyncOk(states[|events|])
  {
    if events != [] {
      var n := |events| - 1;
      RunKeepsSync(f, cfg, states[..n + 1], events[..n]);
      StepKeepsSync(f, cfg, states[n], events[n], states[n + 1]);
    }
  }

  /** In every run, oversize records included: when a ticket is answered durable, its LSN has been given, nothing
      that was written so far is unsynced, and the answer itself changes no file. */
  lemma DurableAnswersAreSynced(f: Format, cfg: WriterConfig, states: seq<Writer>, events: seq<Event>, e: Event, t: Writer)
    requires IsRun(f, cfg, states, events) && Steps(f, cfg)(states[|events|], e, t) && !e.Restart? && !e.Crash?
    requires var s := states[|events|];
             !s.phase.Down? && |t.fulfilled| > |s.fulfilled| && t.fulfilled[|s.fulfilled|].outcome.DurableAccepted?
    ensures var s := states[|events|];
            SyncedUp(s.store) && t.store == s.store && s.base <= t.fulfilled[|s.fulfilled|].outcome.lsn < s.next
  {
    var s := states[|events|];
    RunKeepsSync(f, cfg, states, events);
    RunKeepsTickets(f, cfg, states, events);
    AnswersAreFinal(f, cfg, s, e, t);
    OnlyFulfilAnswers(f, cfg, s, e, t);
    DurableAnswer(s);
  }

  lemma OnlyFulfilAnswers(f: Format, cfg: WriterConfig, s: Writer, e: Event, t: Writer)
    requires Steps(f, cfg)(s, e, t) && !e.Restart? && !e.Crash? && t.fulfilled != s.fulfilled
    ensures e == Fulfil
  {
    if e.Io? {
      IoTouches(f, cfg, s, e.ok, e.partial, e.aged);
    }
  }

  lemma DurableAnswer(s: Writer)
    requires SyncOk(s) && TicketsOk(s) && !s.phase.Down?
    requires |DoFulfil(s).fulfilled| > |s.fulfilled| && DoFulfil(s).fulfilled[|s.fulfilled|].outcome.DurableAccepted?
    ensures SyncedUp(s.store) && DoFulfil(s).store == s.store
    ensures s.base <= DoFulfil(s).fulfilled[|s.fulfilled|].outcome.lsn < s.next
  {
    assert s.phase.Fulfilling? && s.phase.batch[0].durable;
  }

  /** Only the renaming of a full segment changes the closed segments. */
  lemma WriteCloses(f: Format, cfg: WriterConfig, s: Writer, batch: seq<Pending>, lsns: seq<nat>, stage: Stage,
                    ok: bool, partial: nat, aged: bool)
    ensures var store := DoWrite(f, cfg, s, batch, lsns, stage, ok, partial, aged).store;
            store.parts != s.store.parts ==>
              stage == Renaming && s.store.tail.Some? && store.parts == s.store.parts + [s.store.tail.value] && store.renamed
  {
  }

  /** Nothing but a file operation changes the closed segments. */
  lemma OnlyIoCloses(f: Format, cfg: WriterConfig, s: Writer, e: Event, t: Writer)
    requires Steps(f, cfg)(s, e, t) && !e.Restart? && !e.Crash? && !e.Io?
    ensures t.store.parts == s.store.parts
  {
    assert e.Fulfil? ==> t == DoFulfil(s) && t.store == s.store;
  }

  /** In every run: a segment is closed only with everything in it synced, and only at the end of the log. */
  lemma ClosedSegmentsAreSynced(f: Format, cfg: WriterConfig, states: seq<Writer>, events: seq<Event>, e: Event, t: Writer)
    requires IsRun(f, cfg, states, events) && Steps(f, cfg)(states[|events|], e, t) && !e.Restart? && !e.Crash?
    requires t.store.parts != states[|events|].store.parts
    ensures var store := states[|events|].store;
            SyncedUp(store) && store.tail.Some? && t.store.parts == store.parts + [store.tail.value] && t.store.renamed
  {
    RunKeepsSync(f, cfg, states, events);
    var s := states[|events|];
    if e.Io? {
      assert t == DoIo(f, cfg, s, e.ok, e.partial, e.aged);
      if s.phase.Writing? {
        WriteCloses(f, cfg, s, s.phase.batch, s.phase.lsns, s.phase.stage, e.ok, e.partial, e.aged);
      }
    } else {
      OnlyIoCloses(f, cfg, s, e, t);
    }
  }
}
