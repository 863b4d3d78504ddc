/** The ticket protocol of the log writer: in every interleaving each accepted ticket gets one outcome, in the
    order of acceptance, with consecutive LSNs, and nothing succeeds after a failure. */
module WalTickets {
  import opened WalCodec
  import opened WalDirectory
  import opened WalWriter

  /** The records accepted and not yet answered that the thread holds. */
  function Held(phase: Phase): seq<Pending> {
    match phase
    case Collecting(batch) => batch
    case Writing(batch, _, _) => batch
    case Syncing(batch, _) => batch
    case Fulfilling(batch, _) => batch
    case Failing(batch) => batch
    case Rejecting(batch) => batch
    case _ => []
  }

  /** The LSNs given to the records held. */
  function Given(phase: Phase): seq<nat> {
    match phase
    case Writing(_, lsns, _) => lsns
    case Syncing(_, lsns) => lsns
    case Fulfilling(_, lsns) => lsns
    case _ => []
  }

  predicate Broken(s: Writer) {
    s.fault || s.phase.Failing? || s.phase.Faulting? || s.phase.Rejecting?
  }

  function Owed(s: Writer): seq<Pending> {
    Held(s.phase) + s.queue
  }

  /** Tickets are answered in order from zero; those owed an answer are the next ones up to the last issued. */
  ghost predicate InOrder(fulfilled: seq<Fulfilled>, owed: seq<Pending>, issued: nat) {
    && |fulfilled| + |owed| == issued
    && (forall i | 0 <= i < |fulfilled| :: fulfilled[i].ticket == i)
    && (forall i | 0 <= i < |owed| :: owed[i].ticket == |fulfilled| + i)
  }

  /** The `i`-th answer, if a success, carries the `i`-th LSN from `base`; after a refusal there are only refusals. */
  ghost predicate Consecutive(fulfilled: seq<Fulfilled>, base: nat) {
    && (forall i | 0 <= i < |fulfilled| && !fulfilled[i].outcome.Refused? :: fulfilled[i].outcome.lsn == base + i)
    && (forall i, j | 0 <= i < j < |fulfilled| && fulfilled[i].outcome.Refused? :: fulfilled[j].outcome.Refused?)
  }

  predicate AllSucceeded(fulfilled: seq<Fulfilled>) {
    forall i | 0 <= i < |fulfilled| :: !fulfilled[i].outcome.Refused?
  }

  predicate LsnsFrom(lsns: seq<nat>, first: nat) {
    forall i | 0 <= i < |lsns| :: lsns[i] == first + i
  }

  /** What the thread keeps while nothing has failed. */
  ghost predicate Healthy(s: Writer) {
    && AllSucceeded(s.fulfilled)
    && LsnsFrom(Given(s.phase), s.base + |s.fulfilled|)
    && s.next == s.base + |s.fulfilled| + |Given(s.phase)|
    && (s.phase.Writing? ==> |s.phase.lsns| < |s.phase.batch|)
    && (s.phase.Syncing? || s.phase.Fulfilling? ==> |Given(s.phase)| == |Held(s.phase)| > 0)
  }

  /** After a failure nothing is accepted any more once the queue was emptied. */
  ghost predicate ReadOnly(s: Writer) {
    s.fault ==> s.phase.Faulting? || (s.queue == [] && (s.phase.Rejecting? || s.phase.Idle? || s.phase.Exited?))
  }

  ghost predicate TicketsOk(s: Writer) {
    !s.phase.Down? ==>
      && InOrder(s.fulfilled, Owed(s), s.issued)
      && Consecutive(s.fulfilled, s.base)
      && (!Broken(s) ==> Healthy(s))
      && ReadOnly(s)
      && (s.phase.Faulting? || s.phase.Rejecting? ==> s.fault)
      && (s.stopping ==> !s.accepting)
      && (s.phase.Exited? ==> s.queue == [] && s.stopping)
  }

  lemma AppendKeepsTickets(cfg: WriterConfig, s: Writer, record: WalRecord, durable: bool)
    requires TicketsOk(s)
    ensures TicketsOk(DoAppend(cfg, s, record, durable))
  {
    var t := DoAppend(cfg, s, record, durable);
    if t != s {
      assert Owed(t) == Owed(s) + [Pending(record, durable, s.issued)];
    }
  }

  lemma TakeKeepsTickets(cfg: WriterConfig, s: Writer)
    requires TicketsOk(s) && CanTake(cfg, s)
    ensures TicketsOk(DoTake(s))
  {
    var t := DoTake(s);
    assert Held(s.phase) == Batch(s.phase);
    assert Owed(t) == Owed(s) by {
      assert s.queue == [s.queue[0]] + s.queue[1..];
      assert Held(t.phase) == Held(s.phase) + [s.queue[0]];
    }
  }

  /** What a file operation does to the tickets: it fails the batch, moves on, or gives one LSN. */
  ghost predicate Touched(s: Writer, t: Writer) {
    && t == s.(phase := t.phase, next := t.next, unsynced := t.unsynced, store := t.store, safe := t.safe)
    && Held(t.phase) == Held(s.phase)
    && ((t.phase == s.phase && t.next == s.next && t.store == s.store)
        || ((s.phase.Writing? || s.phase.Syncing?) && (t.phase.Failing? || Moved(s, t) || Gave(s, t))))
  }

  predicate Moved(s: Writer, t: Writer) {
    && t.next == s.next && Given(t.phase) == Given(s.phase)
    && (if s.phase.Syncing? then t.phase.Fulfilling? else t.phase.Writing?)
  }

  predicate Gave(s: Writer, t: Writer) {
    && s.phase.Writing? && |Given(s.phase)| < |Held(s.phase)|
    && t.next == s.next + 1 && Given(t.phase) == Given(s.phase) + [s.next]
    && if |Given(t.phase)| < |Held(t.phase)| then t.phase.Writing? else t.phase.Syncing? || t.phase.Fulfilling?
  }

  /** The same as a value. */
  ghost function Touches(s: Writer): Writer -> bool {
    (t: Writer) => Touched(s, t)
  }

  lemma RecordTouches(f: Format, s: Writer, ok: bool, partial: nat)
    requires s.store.tail.Some? && s.phase.Writing? && |s.phase.lsns| < |s.phase.batch|
    ensures Touches(s)(WriteRecord(f, s, s.phase.batch, s.phase.lsns, ok, partial))
  {
  }

  lemma SegmentTouches(f: Format, s: Writer, ok: bool, partial: nat)
    requires s.phase.Writing?
    ensures Touches(s)(CreateSegment(s, s.phase.batch, s.phase.lsns, ok))
    ensures s.store.tail.Some? ==> Touches(s)(StartSegment(f, s, s.phase.batch, s.phase.lsns, ok, partial))
    ensures s.store.tail.Some? ==> Touches(s)(CloseSegment(s, s.phase.batch, s.phase.lsns))
    ensures Touches(s)(Fail(s, s.phase.batch))
  {
  }

  lemma SyncTouches(s: Writer)
    requires s.phase.Writing?
    ensures Touches(s)(SyncedAll(s).(phase := Writing(s.phase.batch, s.phase.lsns, Renaming)))
    ensures Touches(s)(s.(store := s.store.(renamed := false), phase := Writing(s.phase.batch, s.phase.lsns, Creating)))
  {
  }

  lemma NothingTouches(s: Writer)
    ensures Touches(s)(s)
  {
  }

  lemma SyncedTouches(s: Writer)
    requires s.phase.Syncing?
    ensures Touches(s)(SyncedAll(s).(phase := Fulfilling(s.phase.batch, s.phase.lsns), unsynced := false))
    ensures Touches(s)(Fail(s, s.phase.batch))
  {
  }

  lemma IoTouches(f: Format, cfg: WriterConfig, s: Writer, ok: bool, partial: nat, aged: bool)
    ensures Touches(s)(DoIo(f, cfg, s, ok, partial, aged))
  {
    NothingTouches(s);
    if s.phase.Writing? {
      SegmentTouches(f, s, ok, partial);
      SyncTouches(s);
      if s.phase.stage == Ready && s.store.tail.Some? && |s.phase.lsns| < |s.phase.batch| {
        RecordTouches(f, s, ok, partial);
      }
    } else if s.phase.Syncing? {
      SyncedTouches(s);
    }
  }

  lemma LsnsAppend(lsns: seq<nat>, first: nat)
    requires LsnsFrom(lsns, first)
    ensures LsnsFrom(lsns + [first + |lsns|], first)
  {
  }

  lemma IoKeepsTickets(f: Format, cfg: WriterConfig, s: Writer, ok: bool, partial: nat, aged: bool)
    requires TicketsOk(s)
    ensures TicketsOk(DoIo(f, cfg, s, ok, partial, aged))
  {
    IoTouches(f, cfg, s, ok, partial, aged);
    assert Touched(s, DoIo(f, cfg, s, ok, partial, aged));
    if !Broken(s) {
      LsnsAppend(Given(s.phase), s.base + |s.fulfilled|);
    }
  }

  lemma Answer(fulfilled: seq<Fulfilled>, owed: seq<Pending>, issued: nat, base: nat, outcome: Outcome)
    requires InOrder(fulfilled, owed, issued) && Consecutive(fulfilled, base) && owed != []
    requires outcome.Refused? || (AllSucceeded(fulfilled) && outcome.lsn == base + |fulfilled|)
    ensures var more := fulfilled + [Fulfilled(owed[0].ticket, outcome)];
            InOrder(more, owed[1..], issued) && Consecutive(more, base) && (!outcome.Refused? ==> AllSucceeded(more))
  {
  }

  /** One answer takes the first record held off the list. */
  lemma FulfilTouches(s: Writer)
    ensures var t := DoFulfil(s);
            && t == s.(phase := t.phase, fulfilled := t.fulfilled, promised := t.promised)
            && (t.fulfilled != s.fulfilled ==>
                  && Held(s.phase) != [] && Held(t.phase) == Held(s.phase)[1..]
                  && exists o :: t.fulfilled == s.fulfilled + [Fulfilled(Held(s.phase)[0].ticket, o)]
                       && if s.phase.Fulfilling? then
                            && Given(s.phase) != [] && |Given(s.phase)| == |Held(s.phase)|
                            && !o.Refused? && o.lsn == Given(s.phase)[0] && Given(t.phase) == Given(s.phase)[1..]
                            && t.phase == (if Held(t.phase) == [] then Idle else Fulfilling(Held(t.phase), Given(t.phase)))
                          else o == Refused && (s.phase.Failing? || s.phase.Rejecting?) && t.phase == s.phase.(batch := Held(t.phase)))
            && (t.fulfilled == s.fulfilled ==>
                  t.phase == s.phase || (s.phase == Rejecting([]) && t.phase == Idle)
                  || (s.phase.Fulfilling? && t.phase == Idle && (s.phase.batch == [] || |s.phase.lsns| != |s.phase.batch|)))
  {
    var t := DoFulfil(s);
    if t.fulfilled != s.fulfilled {
      var o := t.fulfilled[|s.fulfilled|].outcome;
      assert t.fulfilled == s.fulfilled + [Fulfilled(Held(s.phase)[0].ticket, o)];
    }
  }

  lemma FulfilKeepsTickets(s: Writer)
    requires TicketsOk(s)
    ensures TicketsOk(DoFulfil(s))
  {
    var t := DoFulfil(s);
    FulfilTouches(s);
    if t.fulfilled != s.fulfilled && !s.phase.Down? {
      assert Owed(s)[0] == Held(s.phase)[0] && Owed(t) == Owed(s)[1..];
      Answer(s.fulfilled, Owed(s), s.issued, s.base, t.fulfilled[|s.fulfilled|].outcome);
    }
  }

  lemma ProcessKeepsTickets(s: Writer)
    requires TicketsOk(s) && s.phase.Collecting? && s.phase.batch != []
    ensures TicketsOk(s.(phase := if s.fault then Rejecting(s.phase.batch) else Writing(s.phase.batch, [], Ready)))
  {
    assert !s.fault;
    assert Owed(s.(phase := Writing(s.phase.batch, [], Ready))) == Owed(s);
  }

  lemma SwapKeepsTickets(s: Writer)
    requires TicketsOk(s) && s.phase.Faulting?
    ensures TicketsOk(s.(queue := [], queuedBytes := 0, phase := Rejecting(s.queue)))
  {
    assert Owed(s.(queue := [], queuedBytes := 0, phase := Rejecting(s.queue))) == Owed(s);
  }

  lemma StartKeepsTickets(f: Format, s: Writer, store: Store, next: nat, opens: bool, ok: bool, partial: nat)
    requires s.phase.Down?
    ensures TicketsOk(Started(f, s, store, next, opens, ok, partial))
  {
  }

  lemma RestartKeepsTickets(f: Format, s: Writer, dir: Dir, listing: seq<string>, opens: bool, ok: bool, partial: nat, t: Writer)
    requires RestartStep(f, s, dir, listing, opens, ok, partial, t)
    ensures TicketsOk(t)
  {
    var (read, dir') := ScanDirectory(f, dir, listing, 1, true);
    if !read.verdict.Failed? {
      var kept := if s.store.tail.Some? then FileOf(dir', s.store.tail.value.ToEntry(true)).bytes else [];
      StartKeepsTickets(f, s, Recovered(s.store, kept, |read.records|), read.expected, opens, ok, partial);
    }
  }

  lemma StepKeepsTickets(f: Format, cfg: WriterConfig, s: Writer, e: Event, t: Writer)
    requires TicketsOk(s) && Steps(f, cfg)(s, e, t)
    ensures TicketsOk(t)
  {
    match e
    case Append(record, durable) => AppendKeepsTickets(cfg, s, record, durable);
    case Take => TakeKeepsTickets(cfg, s);
    case Process => ProcessKeepsTickets(s);
    case Io(ok, partial, aged) => IoKeepsTickets(f, cfg, s, ok, partial, aged);
    case Fulfil => FulfilKeepsTickets(s);
    case EnterFault =>
    case SwapQueue => SwapKeepsTickets(s);
    case Stop =>
    case Exit(_) =>
    case Crash(_, _, _) =>
    case Restart(dir, listing, opens, ok, partial) => RestartKeepsTickets(f, s, dir, listing, opens, ok, partial, t);
  }

  lemma {:induction false} RunKeepsTickets(f: Format, cfg: WriterConfig, states: seq<Writer>, events: seq<Event>)
    requires IsRun(f, cfg, states, events)
    ensures TicketsOk(states[|events|])
  {
    if events != [] {
      var n := |events| - 1;
      RunKeepsTickets(f, cfg, states[..n + 1], events[..n]);
      StepKeepsTickets(f, cfg, states[n], events[n], states[n + 1]);
    }
  }

  /** In every run, at every moment the writer is up: the answers given are those of the first tickets in order of
      acceptance, each ticket once; successes carry consecutive LSNs in that order and stop at the first refusal;
      and when the thread has exited, which is what shutdown waits for, every accepted ticket has its answer. */
  lemma TicketsAnsweredInOrder(f: Format, cfg: WriterConfig, states: seq<Writer>, events: seq<Event>)
    requires IsRun(f, cfg, states, events) && !states[|events|].phase.Down?
    ensures var s := states[|events|];
            && (forall i | 0 <= i < |s.fulfilled| :: s.fulfilled[i].ticket == i < s.issued)
            && Consecutive(s.fulfilled, s.base)
            && (s.phase.Exited? ==> |s.fulfilled| == s.issued)
  {
    RunKeepsTickets(f, cfg, states, events);
  }

  /** Answers are final, and a read-only writer accepts nothing, writes nothing and gives no success any more. */
  lemma AnswersAreFinal(f: Format, cfg: WriterConfig, s: Writer, e: Event, t: Writer)
    requires TicketsOk(s) && Steps(f, cfg)(s, e, t) && !e.Restart? && !e.Crash? && !s.phase.Down?
    ensures s.fulfilled <= t.fulfilled && |t.fulfilled| <= |s.fulfilled| + 1
    ensures s.fault ==> t.fault && t.issued == s.issued && t.store == s.store
    ensures s.fault && t.fulfilled != s.fulfilled ==> t.fulfilled[|s.fulfilled|].outcome == Refused
  {
    FulfilTouches(s);
    if e.Io? {
      IoTouches(f, cfg, s, e.ok, e.partial, e.aged);
    }
  }
}
