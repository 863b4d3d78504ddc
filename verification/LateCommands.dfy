/** When replay equals the live run: exactly if no command arrived late. */
module LateCommands {
  import opened Integers
  import opened WorldModel
  import opened CommandBuffer
  import opened Replay
  import opened Ingress
  import opened Sorting

  predicate Mentioned(outcomes: seq<Outcome>, sequence: nat) {
    exists i :: 0 <= i < |outcomes| && outcomes[i].sequence == sequence
  }

  predicate OutcomesUpTo(outcomes: seq<Outcome>, bound: nat) {
    forall i | 0 <= i < |outcomes| :: outcomes[i].sequence < bound
  }

  lemma MentionGrows(a: seq<Outcome>, last: Outcome, sequence: nat)
    ensures Mentioned(a, sequence) || last.sequence == sequence ==> Mentioned(a + [last], sequence)
  {
    if Mentioned(a, sequence) {
      var i :| 0 <= i < |a| && a[i].sequence == sequence;
      assert (a + [last])[i].sequence == sequence;
    } else {
      assert (a + [last])[|a|] == last;
    }
  }

  lemma {:induction false} DueIsReported(w: WorldValue, commands: seq<Command>, tick: nat, c: Command)
    requires c in commands
    ensures var r := ApplyAll(w, commands, tick); if c.target > tick then c in r.deferred else Mentioned(r.outcomes, c.sequence)
  {
    var init, last := commands[..|commands| - 1], commands[|commands| - 1];
    var before := ApplyAll(w, init, tick);
    if c in init {
      DueIsReported(w, init, tick, c);
    }
    MentionGrows(before.outcomes, Execute(before.world, last).1, c.sequence);
  }

  lemma {:induction false} OutcomesBelow(w: WorldValue, commands: seq<Command>, tick: nat, bound: nat)
    requires PendingBelow(commands, bound)
    ensures var r := ApplyAll(w, commands, tick);
            PendingBelow(r.deferred, bound) && OutcomesUpTo(r.outcomes, bound)
  {
    if commands != [] {
      OutcomesBelow(w, commands[..|commands| - 1], tick, bound);
    }
  }

  /** A step reports whatever is due and keeps the rest. */
  ghost predicate ReportsAllDue(step: StepFn) {
    forall r: Runtime, c | c in r.buffer.pending :: DueOrKept(r, c, step(r))
  }

  predicate DueOrKept(r: Runtime, c: Command, after: (Runtime, Report)) {
    if c.target <= r.clock then Mentioned(after.1.outcomes, c.sequence) else c in after.0.buffer.pending
  }

  /** A step reports and keeps nothing that was not waiting. */
  ghost predicate ReportsOnlyWaiting(step: StepFn) {
    forall r: Runtime, bound: nat | PendingBelow(r.buffer.pending, bound) ::
      PendingBelow(step(r).0.buffer.pending, bound) && OutcomesUpTo(step(r).1.outcomes, bound)
  }

  lemma TickReportsDue(systems: Systems, r: Runtime, c: Command)
    requires c in r.buffer.pending
    ensures DueOrKept(r, c, Tick(systems, r))
  {
    var sorted := SortBy(BySequence, r.buffer.pending);
    assert c in multiset(sorted);
    DueIsReported(r.world, sorted, r.clock, c);
  }

  lemma TickReportsWaiting(systems: Systems, r: Runtime, bound: nat)
    requires PendingBelow(r.buffer.pending, bound)
    ensures PendingBelow(Tick(systems, r).0.buffer.pending, bound) && OutcomesUpTo(Tick(systems, r).1.outcomes, bound)
  {
    var sorted := SortBy(BySequence, r.buffer.pending);
    forall i | 0 <= i < |sorted|
      ensures sorted[i].sequence < bound
    {
      assert sorted[i] in multiset(sorted);
      assert sorted[i] in r.buffer.pending;
    }
    OutcomesBelow(r.world, sorted, r.clock, bound);
  }

  lemma StepperReportsAllDue(systems: Systems)
    ensures ReportsAllDue(Stepper(systems))
  {
    forall r: Runtime, c | c in r.buffer.pending
      ensures DueOrKept(r, c, Stepper(systems)(r))
    {
      TickReportsDue(systems, r, c);
    }
  }

  lemma StepperReportsOnlyWaiting(systems: Systems)
    ensures ReportsOnlyWaiting(Stepper(systems))
  {
    forall r: Runtime, bound: nat | PendingBelow(r.buffer.pending, bound)
      ensures PendingBelow(Stepper(systems)(r).0.buffer.pending, bound) && OutcomesUpTo(Stepper(systems)(r).1.outcomes, bound)
    {
      TickReportsWaiting(systems, r, bound);
    }
  }

  // ---- Replay reports a waiting command early ----

  predicate SomeReported(reports: seq<Report>, sequence: nat) {
    exists i :: 0 <= i < |reports| && Mentioned(reports[i].outcomes, sequence)
  }

  /** The command still waits or was reported. */
  predicate Accounted(p: Progress, c: Command) {
    c in p.0.buffer.pending || SomeReported(p.1, c.sequence)
  }

  lemma ReportedStays(reports: seq<Report>, last: Report, sequence: nat)
    ensures SomeReported(reports, sequence) || Mentioned(last.outcomes, sequence) ==> SomeReported(reports + [last], sequence)
  {
    if SomeReported(reports, sequence) {
      var i :| 0 <= i < |reports| && Mentioned(reports[i].outcomes, sequence);
      assert (reports + [last])[i] == reports[i];
    } else {
      assert (reports + [last])[|reports|] == last;
    }
  }

  lemma StepAccounts(step: StepFn, p: Progress, c: Command)
    requires ReportsAllDue(step) && Accounted(p, c)
    ensures Accounted(Stepped(step, p), c) && (c.target <= p.0.clock ==> SomeReported(Stepped(step, p).1, c.sequence))
  {
    assert c in p.0.buffer.pending ==> DueOrKept(p.0, c, step(p.0));
    ReportedStays(p.1, step(p.0).1, c.sequence);
  }

  /** Stepping past a waiting command's tick reports it. */
  lemma {:induction false} WaitingIsReported(step: StepFn, s: Runtime, c: Command, n: nat)
    requires ReportsAllDue(step) && Advances(step) && c in s.buffer.pending
    ensures var run := Ticks(step, s, n);
            run.0.clock == s.clock + n && Accounted(run, c) && (n > 0 && c.target < s.clock + n ==> SomeReported(run.1, c.sequence))
  {
    if n > 0 {
      WaitingIsReported(step, s, c, n - 1);
      StepAccounts(step, Ticks(step, s, n - 1), c);
    }
  }

  // ---- The live run has not, before the command arrives ----

  predicate AllBelow(reports: seq<Report>, bound: nat) {
    forall i | 0 <= i < |reports| :: OutcomesUpTo(reports[i].outcomes, bound)
  }

  lemma BelowGrows(reports: seq<Report>, pending: seq<Command>, low: nat, high: nat)
    requires low <= high && AllBelow(reports, low) && PendingBelow(pending, low)
    ensures AllBelow(reports, high) && PendingBelow(pending, high)
  {
    forall i | 0 <= i < |reports|
      ensures OutcomesUpTo(reports[i].outcomes, high)
    {
      assert OutcomesUpTo(reports[i].outcomes, low);
    }
  }

  lemma {:induction false} LiveReportsArrived(step: StepFn, s: Runtime, ops: seq<Op>)
    requires ReportsOnlyWaiting(step) && KeepsBooks(step) && Room(s.buffer, |Inputs(ops)|)
    ensures var p := Live(step, s, ops);
            && p.0.buffer.next == s.buffer.next + |Inputs(ops)|
            && AllBelow(p.1, p.0.buffer.next) && PendingBelow(p.0.buffer.pending, p.0.buffer.next)
  {
    if ops != [] {
      var init := ops[..|ops| - 1];
      InputsPrefix(ops, |init|);
      LiveReportsArrived(step, s, init);
      var before := Live(step, s, init);
      if ops[|init|].Arrive? {
        BelowGrows(before.1, before.0.buffer.pending, before.0.buffer.next, before.0.buffer.next + 1);
      }
    }
  }

  /** The first late command. */
  lemma {:induction false} LateCommand(ops: seq<Op>, clock: nat) returns (k: nat)
    requires !Timely(ops, clock)
    ensures k < |ops| && ops[k].Arrive? && StepCount(ops[..k]) > 0 && ops[k].input.target < clock + StepCount(ops[..k])
  {
    var init := ops[..|ops| - 1];
    if Timely(init, clock) {
      k := |ops| - 1;
    } else {
      k := LateCommand(init, clock);
      assert init[..k] == ops[..k];
    }
  }

  lemma NotBelow(reports: seq<Report>, sequence: nat)
    ensures AllBelow(reports, sequence) ==> !SomeReported(reports, sequence)
  {
    if AllBelow(reports, sequence) {
      forall i | 0 <= i < |reports|
        ensures !Mentioned(reports[i].outcomes, sequence)
      {
        assert OutcomesUpTo(reports[i].outcomes, sequence);
      }
    }
  }

  lemma RenumberedMentions(f: Numbering, outcomes: seq<Outcome>, sequence: nat)
    ensures Mentioned(Each(RenumberOutcome(f), outcomes), sequence) ==> Mentioned(outcomes, sequence)
  {
  }

  lemma RenumberedReported(f: Numbering, reports: seq<Report>, sequence: nat)
    ensures SomeReported(Each(RenumberReport(f), reports), sequence) ==> SomeReported(reports, sequence)
  {
    var renumbered := Each(RenumberReport(f), reports);
    if SomeReported(renumbered, sequence) {
      var i :| 0 <= i < |renumbered| && Mentioned(renumbered[i].outcomes, sequence);
      RenumberedMentions(f, reports[i].outcomes, sequence);
    }
  }

  /** Before a late command arrives, replay has reported it already. */
  lemma LateDiffers(step: StepFn, s: Runtime, after: seq<Op>, again: seq<Input>, f: Numbering, k: nat)
    requires ReportsAllDue(step) && ReportsOnlyWaiting(step) && KeepsBooks(step) && Advances(step) && Room(s.buffer, |Inputs(after)|)
    requires SameCommands(again, Inputs(after))
    requires k < |after| && after[k].Arrive? && StepCount(after[..k]) > 0 && after[k].input.target < s.clock + StepCount(after[..k])
    ensures !SameButIngress(step, SubmitAll(s, again), s, f, after[..k])
  {
    InputsPrefix(after, k);
    var i, live := |Inputs(after[..k])|, Live(step, s, after[..k]);
    SubmitAllAppends(s, again);
    var start, c := SubmitAll(s, again), Commands(again, s.buffer.next)[i];
    assert start.buffer.pending[|s.buffer.pending| + i] == c;
    WaitingIsReported(step, start, c, StepCount(after[..k]));
    LiveReportsArrived(step, s, after[..k]);
    NotBelow(live.1, c.sequence);
    RenumberedReported(f, live.1, c.sequence);
  }

  /** Where replay starts from: the commands to submit are those that arrived after the snapshot. */
  lemma ResubmittedAgain(step: StepFn, s: Runtime, before: seq<Op>, after: seq<Op>, logged: seq<Input>)
    requires KeepsOrder(step) && KeepsBooks(step)
    requires InArrivalOrder(s.buffer) && s.buffer.next + |Inputs(before + after)| < U64
    requires LsnsIncrease(Inputs(before + after), s.buffer.included) && SameCommands(logged, Inputs(before + after))
    ensures var first := Live(step, s, before).0;
            var again := Later(logged, first.buffer.included);
            && Restorable(first.buffer) && Room(first.buffer, |Inputs(after)|) && SameCommands(again, Inputs(after))
            && Resubmitted(first, logged) == SubmitAll(first, again)
  {
    BoundaryFacts(step, s, before, after);
    SameLater(logged, Inputs(before + after), Live(step, s, before).0.buffer.included);
  }

  /** Replay equals the live run exactly if no command arrived late. Let the live run do `before`, take a snapshot, and
      go on with `after`, the logged commands having increasing LSNs. The log keeps everything of a command but its
      ingress number; `logged` are the commands with whatever numbers they are submitted under again. Restoring the
      snapshot, submitting every logged command above the LSN it includes, and stepping as often as the live run had,
      gives the same reports tick by tick with just these ingress numbers in place of the old, the same world and the
      same clock at every point of `after` if and only if after the snapshot each command arrives before its tick is
      stepped. What arrived before the snapshot may have been late. */
  lemma ReplayEqualsLiveIff(systems: Systems, s: Runtime, before: seq<Op>, after: seq<Op>, logged: seq<Input>)
    requires InArrivalOrder(s.buffer) && s.buffer.next + |Inputs(before + after)| < U64
    requires LsnsIncrease(Inputs(before + after), s.buffer.included) && SameCommands(logged, Inputs(before + after))
    ensures var first := Live(Stepper(systems), s, before).0;
            var f := From(first.buffer.next, Later(logged, first.buffer.included));
            && Restorable(first.buffer)
            && ((forall n: nat | n <= |after| :: SameButIngress(Stepper(systems), Resubmitted(first, logged), first, f, after[..n]))
                <==> Timely(after, first.clock))
  {
    var step := Stepper(systems);
    StepperKeepsApart(systems);
    StepperKeepsBooks(systems);
    StepperKeepsOrder(systems);
    StepperAdvances(systems);
    StepperIndifferent(systems);
    StepperReportsAllDue(systems);
    StepperReportsOnlyWaiting(systems);
    ResubmittedAgain(step, s, before, after, logged);
    var first := Live(step, s, before).0;
    var again := Later(logged, first.buffer.included);
    var f := From(first.buffer.next, again);
    if Timely(after, first.clock) {
      forall n: nat | n <= |after|
        ensures SameButIngress(step, Resubmitted(first, logged), first, f, after[..n])
      {
        ReplayOnwardAgain(step, first, after, f, again, n);
      }
    } else {
      var k := LateCommand(after, first.clock);
      LateDiffers(step, first, after, again, f, k);
    }
  }

  // ---- A command that arrives late ----

  const LATE_OBJECT := Object(1, [], 0, 0, 0, [], map[], map[], [], [], Active, 1, 0)
  const LATE := Input(0, Create(LATE_OBJECT), Meta(0, 0, 1))

  /** A command for a tick already stepped: the live run executes it at the next tick, the replay at its own. */
  lemma LateCommandDiverges()
    ensures var s, step := Runtime(EMPTY_WORLD, FIRST_BUFFER, 0), Stepper((w: WorldValue, tick: nat) => w);
            var ops := [Step, Arrive(LATE)];
            && LsnsIncrease(Inputs(ops), 0) && !Timely(ops, 0)
            && Live(step, s, ops).1 == [Report(0, [], EMPTY_WORLD)]
            && Ticks(step, SubmitAll(s, Inputs(ops)), 1).1[0].outcomes == [Outcome(1, 0, true, NoReason, 1)]
  {
    var s, ops := Runtime(EMPTY_WORLD, FIRST_BUFFER, 0), [Step, Arrive(LATE)];
    assert ops[..1] == [Step] && [Step][..0] == [] && Inputs([Step]) == [] && Inputs(ops) == [LATE] && [LATE][..0] == [];
    assert SortBy(BySequence, []) == [];
    var c := Command(1, 0, Create(LATE_OBJECT), Meta(0, 0, 1));
    assert SubmitAll(s, [LATE]).buffer.pending == [c];
    assert [c][..0] == [] && SortBy(BySequence, [c]) == [c];
    assert ApplyAll(EMPTY_WORLD, [c], 0).outcomes == [] + [Outcome(1, 0, true, NoReason, 1)];
  }
}
