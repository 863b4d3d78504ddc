/** The replay tool: submits all logged commands to a restored runtime, then steps it to the last tick the log
    mentions, checking every recorded state hash on the way. */
module ReplayDriver {
  import opened Integers
  import opened Options
  import opened CommandBuffer
  import opened Replay
  import opened Ingress
  import opened LogReading
  import opened WalScan

  datatype Verdict = Done(runtime: Runtime) | RecordInvalid | ProviderUnknown | HashMismatch

  /** The hash recorded last for each tick. */
  function HashesOf(records: seq<LogRecord>): map<nat, nat> {
    if records == [] then map[]
    else
      var r, before := records[|records| - 1], HashesOf(records[..|records| - 1]);
      if r.HashRecord? && r.point.Some? then before[r.point.value.0 := r.point.value.1] else before
  }

  /** The number of ticks from zero on that the records ask for. */
  function TicksAsked(records: seq<LogRecord>): nat {
    if records == [] then 0
    else
      var r, before := records[|records| - 1], TicksAsked(records[..|records| - 1]);
      var asked := match r
        case CommandRecord(input) => if input.Some? then input.value.target + 1 else 0
        case HashRecord(point) => if point.Some? then point.value.0 + 1 else 0
        case _ => 0;
      if asked > before then asked else before
  }

  /** The tool steps until every tick that a command is for or a hash was recorded at is behind it, and not further. */
  lemma {:induction false} AsksForAll(records: seq<LogRecord>)
    ensures forall i | 0 <= i < |records| :: AsksBelow(records[i], TicksAsked(records))
    ensures TicksAsked(records) > 0 ==> exists i :: 0 <= i < |records| && AsksLast(records[i], TicksAsked(records) - 1)
  {
    if records != [] {
      var init, last := records[..|records| - 1], records[|records| - 1];
      AsksForAll(init);
      if TicksAsked(records) == TicksAsked(init) && TicksAsked(init) > 0 {
        var i :| 0 <= i < |init| && AsksLast(init[i], TicksAsked(init) - 1);
        assert AsksLast(records[i], TicksAsked(records) - 1);
      } else if TicksAsked(records) > 0 {
        assert AsksLast(records[|records| - 1], TicksAsked(records) - 1);
      }
    }
  }

  predicate AsksBelow(r: LogRecord, ticks: nat) {
    && (r.CommandRecord? && r.input.Some? ==> r.input.value.target < ticks)
    && (r.HashRecord? && r.point.Some? ==> r.point.value.0 < ticks)
  }

  predicate AsksLast(r: LogRecord, tick: nat) {
    (r.CommandRecord? && r.input.Some? && r.input.value.target == tick) || (r.HashRecord? && r.point.Some? && r.point.value.0 == tick)
  }

  predicate Agrees(hash: WorldHash, hashes: map<nat, nat>, report: Report) {
    report.tick in hashes ==> hashes[report.tick] == hash(report.world)
  }

  predicate AllAgree(hash: WorldHash, hashes: map<nat, nat>, reports: seq<Report>) {
    forall i | 0 <= i < |reports| :: Agrees(hash, hashes, reports[i])
  }

  function Steps(records: seq<LogRecord>, clock: nat): nat {
    if TicksAsked(records) > clock then TicksAsked(records) - clock else 0
  }

  /** Every record reads, and every command gets a sequence number. */
  predicate Accepted(start: Runtime, records: seq<LogRecord>) {
    records == []
    || (var init, last := records[..|records| - 1], records[|records| - 1];
        Accepted(start, init) && Decodes(last) && (last.CommandRecord? ==> SubmitAll(start, CommandsOf(init)).buffer.next != 0))
  }

  lemma {:induction false} AcceptedPrefix(start: Runtime, records: seq<LogRecord>, n: nat)
    requires n <= |records| && Accepted(start, records)
    ensures Accepted(start, records[..n])
  {
    if n < |records| {
      AcceptedPrefix(start, records[..|records| - 1], n);
      assert records[..|records| - 1][..n] == records[..n];
    } else {
      assert records[..n] == records;
    }
  }

  /** With room for their sequence numbers, records are accepted exactly if they all read. */
  lemma {:induction false} AcceptedIff(start: Runtime, records: seq<LogRecord>)
    requires Room(start.buffer, |CommandsOf(records)|)
    ensures Accepted(start, records) <==> forall i | 0 <= i < |records| :: Decodes(records[i])
  {
    if records != [] {
      var init := records[..|records| - 1];
      AcceptedIff(start, init);
      SubmitAllAppends(start, CommandsOf(init));
    }
  }

  method ReplayLog(step: StepFn, hash: WorldHash, start: Runtime, log: seq<Scanned>) returns (verdict: Verdict)
    requires Advances(step)
    ensures verdict == RecordInvalid || verdict == ProviderUnknown <==> !Accepted(start, Reads(log))
    ensures verdict.Done? || verdict == HashMismatch ==>
              var run := Ticks(step, SubmitAll(start, CommandsOf(Reads(log))), Steps(Reads(log), start.clock));
              if AllAgree(hash, HashesOf(Reads(log)), run.1) then verdict == Done(run.0) else verdict == HashMismatch
  {
    var failure, runtime, hashes, asked := SubmitRecords(start, log);
    if failure.Some? {
      return failure.value;
    }
    SubmittedClock(start, CommandsOf(Reads(log)));
    verdict := StepUntil(step, hash, runtime, hashes, asked);
  }

  method SubmitRecords(start: Runtime, log: seq<Scanned>)
    returns (failure: Option<Verdict>, runtime: Runtime, hashes: map<nat, nat>, asked: nat)
    ensures failure == None <==> Accepted(start, Reads(log))
    ensures failure.Some? ==> failure.value == RecordInvalid || failure.value == ProviderUnknown
    ensures failure == None ==>
              && runtime == SubmitAll(start, CommandsOf(Reads(log)))
              && hashes == HashesOf(Reads(log)) && asked == TicksAsked(Reads(log))
  {
    ghost var records := Reads(log);
    runtime, hashes, asked, failure := start, map[], 0, None;
    for i := 0 to |log|
      invariant failure == None && Accepted(start, records[..i])
      invariant runtime == SubmitAll(start, CommandsOf(records[..i]))
      invariant hashes == HashesOf(records[..i]) && asked == TicksAsked(records[..i])
    {
      var r := ReadRecord(log[i]);
      failure, runtime, hashes, asked := SubmitRecord(start, records[..i], r, runtime, hashes, asked);
      assert records[..i + 1] == records[..i] + [r];
      if failure.Some? {
        if Accepted(start, records) {
          AcceptedPrefix(start, records, i + 1);
        }
        return;
      }
    }
    assert records[..|log|] == records;
  }

  method SubmitRecord(start: Runtime, ghost before: seq<LogRecord>, r: LogRecord, runtime: Runtime, hashes: map<nat, nat>, asked: nat)
    returns (failure: Option<Verdict>, runtime': Runtime, hashes': map<nat, nat>, asked': nat)
    requires Accepted(start, before) && runtime == SubmitAll(start, CommandsOf(before))
    requires hashes == HashesOf(before) && asked == TicksAsked(before)
    ensures failure == None <==> Accepted(start, before + [r])
    ensures failure.Some? ==> failure.value == RecordInvalid || failure.value == ProviderUnknown
    ensures failure == None ==>
              && runtime' == SubmitAll(start, CommandsOf(before + [r]))
              && hashes' == HashesOf(before + [r]) && asked' == TicksAsked(before + [r])
  {
    assert (before + [r])[..|before|] == before;
    failure, runtime', hashes', asked' := None, runtime, hashes, asked;
    match r
    case CommandRecord(input) =>
      if input == None || runtime.buffer.next == 0 {
        failure := Some(RecordInvalid);
      } else {
        AppendsOne(start, CommandsOf(before), input.value);
        runtime' := Submit(runtime, input.value);
        asked' := if input.value.target + 1 > asked then input.value.target + 1 else asked;
      }
    case HashRecord(point) =>
      assert CommandsOf(before) + [] == CommandsOf(before);
      if point == None {
        failure := Some(RecordInvalid);
      } else {
        hashes' := hashes[point.value.0 := point.value.1];
        asked' := if point.value.0 + 1 > asked then point.value.0 + 1 else asked;
      }
    case NoteRecord =>
      assert CommandsOf(before) + [] == CommandsOf(before);
    case ForeignRecord =>
      failure := Some(ProviderUnknown);
  }

  lemma AppendsOne(s: Runtime, inputs: seq<Input>, input: Input)
    ensures SubmitAll(s, inputs + [input]) == Submit(SubmitAll(s, inputs), input)
  {
    assert (inputs + [input])[..|inputs|] == inputs;
  }

  lemma {:induction false} SubmittedClock(s: Runtime, inputs: seq<Input>)
    ensures SubmitAll(s, inputs).clock == s.clock
  {
    if inputs != [] {
      SubmittedClock(s, inputs[..|inputs| - 1]);
    }
  }

  method StepUntil(step: StepFn, hash: WorldHash, start: Runtime, hashes: map<nat, nat>, asked: nat) returns (verdict: Verdict)
    requires Advances(step)
    ensures var run := Ticks(step, start, if asked > start.clock then asked - start.clock else 0);
            if AllAgree(hash, hashes, run.1) then verdict == Done(run.0) else verdict == HashMismatch
  {
    var runtime := start;
    ghost var n, total := 0, if asked > start.clock then asked - start.clock else 0;
    while runtime.clock < asked
      invariant 0 <= n <= total && runtime == Ticks(step, start, n).0 && runtime.clock == start.clock + n
      invariant AllAgree(hash, hashes, Ticks(step, start, n).1)
      decreases asked - runtime.clock
    {
      var (after, report) := step(runtime);
      assert Ticks(step, start, n + 1) == (after, Ticks(step, start, n).1 + [report]);
      ReportsExtend(step, start, n, n);
      ReportsExtend(step, start, n + 1, total);
      assert Ticks(step, start, n + 1).1[n] == report;
      if report.tick in hashes && hashes[report.tick] != hash(report.world) {
        assert Ticks(step, start, total).1[n] == report;
        return HashMismatch;
      }
      runtime := after;
      n := n + 1;
    }
    verdict := Done(runtime);
  }

  /** Stepping further only adds reports. */
  lemma {:induction false} ReportsExtend(step: StepFn, s: Runtime, n: nat, m: nat)
    requires n <= m
    ensures |Ticks(step, s, n).1| == n && |Ticks(step, s, m).1| == m
    ensures Ticks(step, s, n).1 <= Ticks(step, s, m).1
  {
    if n < m {
      ReportsExtend(step, s, n, m - 1);
    } else if n > 0 {
      ReportsExtend(step, s, n - 1, n - 1);
    }
  }

  lemma {:induction false} ReportTicks(systems: Systems, s: Runtime, n: nat)
    ensures var run := Ticks(Stepper(systems), s, n);
            run.0.clock == s.clock + n && |run.1| == n && forall i | 0 <= i < n :: run.1[i].tick == s.clock + i
  {
    if n > 0 {
      ReportTicks(systems, s, n - 1);
    }
  }

  /** Every hash recorded is that of the live run's world at its tick, and none is recorded for a tick the live run
      has not reached since the snapshot. */
  predicate OwnHashes(systems: Systems, hash: WorldHash, first: Runtime, after: seq<Op>, hashes: map<nat, nat>) {
    && AllAgree(hash, hashes, Live(Stepper(systems), first, after).1)
    && forall t | t in hashes :: t < first.clock + StepCount(after)
  }

  lemma LiveReportCount(step: StepFn, s: Runtime, ops: seq<Op>)
    ensures |Live(step, s, ops).1| == StepCount(ops)
  {
  }

  /** The reports of the live run under the ingress numbers that replay gives. */
  function Told(systems: Systems, f: Numbering, first: Runtime, after: seq<Op>): seq<Report> {
    Each(RenumberReport(f), Live(Stepper(systems), first, after).1)
  }

  lemma ToldAgree(systems: Systems, hash: WorldHash, f: Numbering, first: Runtime, after: seq<Op>, hashes: map<nat, nat>)
    ensures |Told(systems, f, first, after)| == StepCount(after)
    ensures AllAgree(hash, hashes, Live(Stepper(systems), first, after).1) ==> AllAgree(hash, hashes, Told(systems, f, first, after))
  {
    LiveReportCount(Stepper(systems), first, after);
    var live, told := Live(Stepper(systems), first, after).1, Told(systems, f, first, after);
    if AllAgree(hash, hashes, live) {
      forall i | 0 <= i < |told|
        ensures Agrees(hash, hashes, told[i])
      {
        assert Agrees(hash, hashes, live[i]);
      }
    }
  }

  /** Stepping any number of times meets no mismatch, and reports what the live run reported. */
  lemma OwnLogAgrees(systems: Systems, hash: WorldHash, first: Runtime, after: seq<Op>, hashes: map<nat, nat>, start: Runtime, f: Numbering, m: nat)
    requires SameButIngress(Stepper(systems), start, first, f, after) && start.clock == first.clock
    requires OwnHashes(systems, hash, first, after, hashes)
    ensures var told, run := Told(systems, f, first, after), Ticks(Stepper(systems), start, m).1;
            AllAgree(hash, hashes, run) && if m <= |told| then run == told[..m] else told <= run
  {
    ToldAgree(systems, hash, f, first, after, hashes);
    var told := Told(systems, f, first, after);
    assert Ticks(Stepper(systems), start, StepCount(after)).1 == told;
    if m <= StepCount(after) {
      ReportsExtend(Stepper(systems), start, m, StepCount(after));
      AgreePrefix(hash, hashes, told, m);
    } else {
      ReportTicks(systems, start, m);
      ReportsExtend(Stepper(systems), start, StepCount(after), m);
      LaterTicksUnrecorded(hash, hashes, first.clock, told, Ticks(Stepper(systems), start, m).1);
    }
  }

  lemma AgreePrefix(hash: WorldHash, hashes: map<nat, nat>, reports: seq<Report>, m: nat)
    requires m <= |reports| && AllAgree(hash, hashes, reports)
    ensures AllAgree(hash, hashes, reports[..m])
  {
    forall i | 0 <= i < m
      ensures Agrees(hash, hashes, reports[..m][i])
    {
      assert Agrees(hash, hashes, reports[i]);
    }
  }

  /** The tool accepts the log of the run it replays. `issued` are the durable commands of the live run since the
      snapshot, `log` is what it logged: the commands' records, the hashes of its own worlds, and notes. If the log
      could keep each command and none arrived late, the tool finishes without a mismatch; its reports are the live
      run's with no ingress number for these commands, as far as both went, and where the log asks for as many ticks as
      the live run made, it ends in the live run's world. */
  method ReplayOwnLog(systems: Systems, hash: WorldHash, s: Runtime, before: seq<Op>, after: seq<Op>, first: Runtime,
                      log: seq<Scanned>, ghost issued: seq<Issued>)
    returns (verdict: Verdict)
    requires InArrivalOrder(s.buffer) && s.buffer.next + |Inputs(before + after)| < U64
    requires LsnsIncrease(Inputs(before + after), s.buffer.included)
    requires first == Live(Stepper(systems), s, before).0 && Timely(after, first.clock)
    requires Later(Inputs(before + after), first.buffer.included) == LiveInputs(issued)
    requires OwnRecords(log, issued) && AllInRange(issued) && AllKept(issued) && OthersDecode(log)
    requires OwnHashes(systems, hash, first, after, HashesOf(Reads(log)))
    ensures var m := Steps(Reads(log), first.clock);
            var told := Told(systems, Unnumbered(first.buffer.next), first, after);
            var run := Ticks(Stepper(systems), SubmitAll(Restored(first), CommandsOf(Reads(log))), m);
            && verdict == Done(run.0)
            && (if m <= |told| then run.1 == told[..m] else told <= run.1)
            && (m == StepCount(after) ==> run.0.world == Live(Stepper(systems), first, after).0.world)
  {
    StepperAdvances(systems);
    ghost var f := Unnumbered(first.buffer.next);
    OwnCommandsReadBackIff(log, issued);
    ReadingGives(log, first.buffer.next);
    OwnLogStarts(systems, s, before, after, first, f, Reads(log));
    verdict := ReplayLog(Stepper(systems), hash, Restored(first), log);
    OwnLogAgrees(systems, hash, first, after, HashesOf(Reads(log)), SubmitAll(first, CommandsOf(Reads(log))), f, Steps(Reads(log), first.clock));
  }

  lemma OwnLogStarts(systems: Systems, s: Runtime, before: seq<Op>, after: seq<Op>, first: Runtime, f: Numbering, records: seq<LogRecord>)
    requires InArrivalOrder(s.buffer) && s.buffer.next + |Inputs(before + after)| < U64
    requires LsnsIncrease(Inputs(before + after), s.buffer.included)
    requires first == Live(Stepper(systems), s, before).0 && Timely(after, first.clock)
    requires forall i | 0 <= i < |records| :: Decodes(records[i])
    requires SameCommands(CommandsOf(records), Later(Inputs(before + after), first.buffer.included))
    requires Gives(f, first.buffer.next, CommandsOf(records))
    ensures Restored(first) == first && Accepted(first, records)
    ensures var start := SubmitAll(first, CommandsOf(records));
            && start.clock == first.clock
            && SameButIngress(Stepper(systems), start, first, f, after)
  {
    var step := Stepper(systems);
    StepperKeepsApart(systems);
    StepperKeepsBooks(systems);
    StepperKeepsOrder(systems);
    StepperIndifferent(systems);
    BoundaryFacts(step, s, before, after);
    ReplayOnwardAgain(step, first, after, f, CommandsOf(records), |after|);
    assert after[..|after|] == after;
    AcceptedIff(first, records);
    SubmittedClock(first, CommandsOf(records));
  }

  lemma LaterTicksUnrecorded(hash: WorldHash, hashes: map<nat, nat>, clock: nat, known: seq<Report>, all: seq<Report>)
    requires known <= all && AllAgree(hash, hashes, known)
    requires forall i | 0 <= i < |all| :: all[i].tick == clock + i
    requires forall t | t in hashes :: t < clock + |known|
    ensures AllAgree(hash, hashes, all)
  {
    forall i | 0 <= i < |all|
      ensures Agrees(hash, hashes, all[i])
    {
      if i < |known| {
        assert all[i] == known[i] && Agrees(hash, hashes, known[i]);
      }
    }
  }
}
