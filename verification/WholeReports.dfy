/** When replay's reports are the live run's to the last field, ingress numbers included. */
module WholeReports {
  import opened Integers
  import opened WorldModel
  import opened CommandBuffer
  import opened Replay
  import opened Ingress
  import opened LateCommands
  import opened Sorting

  /** The outcome is that of a command which was due by `tick`. */
  predicate TellsOf(o: Outcome, c: Command, tick: nat) {
    o.sequence == c.sequence && o.ingress == c.meta.ingress && c.target <= tick
  }

  ghost predicate FromSome(outcomes: seq<Outcome>, commands: seq<Command>, tick: nat) {
    forall o | o in outcomes :: exists c :: c in commands && TellsOf(o, c, tick)
  }

  lemma {:induction false} OutcomesFromSome(w: WorldValue, commands: seq<Command>, tick: nat)
    ensures var r := ApplyAll(w, commands, tick);
            FromSome(r.outcomes, commands, tick) && forall c | c in r.deferred :: c in commands
  {
    if commands != [] {
      var init, last := commands[..|commands| - 1], commands[|commands| - 1];
      OutcomesFromSome(w, init, tick);
      var before := ApplyAll(w, init, tick);
      assert last.target <= tick ==> TellsOf(Execute(before.world, last).1, last, tick);
      assert last in commands && forall c | c in init :: c in commands;
    }
  }

  /** A step reports only on waiting commands that are due, and keeps only waiting ones. */
  ghost predicate ReportsFromWaiting(step: StepFn) {
    forall r: Runtime :: StepFromWaiting(r, step(r))
  }

  ghost predicate StepFromWaiting(r: Runtime, after: (Runtime, Report)) {
    && FromSome(after.1.outcomes, r.buffer.pending, r.clock)
    && forall c | c in after.0.buffer.pending :: c in r.buffer.pending
  }

  lemma StepperReportsFromWaiting(systems: Systems)
    ensures ReportsFromWaiting(Stepper(systems))
  {
    forall r: Runtime
      ensures StepFromWaiting(r, Stepper(systems)(r))
    {
      var sorted := SortBy(BySequence, r.buffer.pending);
      assert forall c :: c in sorted <==> c in multiset(sorted);
      assert forall c :: c in sorted <==> c in r.buffer.pending;
      OutcomesFromSome(r.world, sorted, r.clock);
    }
  }

  ghost predicate AllFromSome(reports: seq<Report>, commands: seq<Command>, tick: nat) {
    forall r | r in reports :: FromSome(r.outcomes, commands, tick)
  }

  lemma FromMore(outcomes: seq<Outcome>, few: seq<Command>, many: seq<Command>, early: nat, late: nat)
    requires FromSome(outcomes, few, early) && early <= late && forall c | c in few :: c in many
    ensures FromSome(outcomes, many, late)
  {
    forall o | o in outcomes
      ensures exists c :: c in many && TellsOf(o, c, late)
    {
      var c :| c in few && TellsOf(o, c, early);
      assert TellsOf(o, c, late);
    }
  }

  /** Whatever is reported in some steps is of commands that waited at the start and fell due meanwhile. */
  lemma {:induction false} ReportsFromStart(step: StepFn, s: Runtime, n: nat)
    requires ReportsFromWaiting(step) && Advances(step)
    ensures var run := Ticks(step, s, n);
            && run.0.clock == s.clock + n && (forall c | c in run.0.buffer.pending :: c in s.buffer.pending)
            && (n == 0 ==> run.1 == []) && (n > 0 ==> AllFromSome(run.1, s.buffer.pending, s.clock + n - 1))
  {
    if n > 0 {
      ReportsFromStart(step, s, n - 1);
      var before := Ticks(step, s, n - 1);
      assert StepFromWaiting(before.0, step(before.0));
      FromMore(step(before.0).1.outcomes, before.0.buffer.pending, s.buffer.pending, s.clock + n - 1, s.clock + n - 1);
      forall r | r in before.1
        ensures FromSome(r.outcomes, s.buffer.pending, s.clock + n - 1)
      {
        FromMore(r.outcomes, s.buffer.pending, s.buffer.pending, s.clock + n - 2, s.clock + n - 1);
      }
    }
  }

  /** Every command that steps executed in `after` carries the ingress number it had. */
  predicate NumbersKept(after: seq<Op>, clock: nat, again: seq<Input>)
    requires |again| == |Inputs(after)|
  {
    StepCount(after) > 0 ==>
      forall i | 0 <= i < |again| && Inputs(after)[i].target < clock + StepCount(after) ::
        again[i].meta.ingress == Inputs(after)[i].meta.ingress
  }

  lemma WaitingSplit(s: Runtime, inputs: seq<Input>, c: Command)
    requires Room(s.buffer, |inputs|) && c in SubmitAll(s, inputs).buffer.pending
    ensures c in s.buffer.pending || exists i :: 0 <= i < |inputs| && c == Commands(inputs, s.buffer.next)[i]
  {
    SubmitAllAppends(s, inputs);
    if c !in s.buffer.pending {
      assert c in Commands(inputs, s.buffer.next);
    }
  }

  /** A command that fell due keeps its number under the renumbering. */
  lemma DueKeepsNumber(s: Runtime, after: seq<Op>, again: seq<Input>, c: Command)
    requires Room(s.buffer, |Inputs(after)|) && SameCommands(again, Inputs(after)) && NumbersKept(after, s.clock, again)
    requires StepCount(after) > 0 && c in SubmitAll(s, Inputs(after)).buffer.pending && c.target < s.clock + StepCount(after)
    ensures From(s.buffer.next, again)(c.sequence, c.meta.ingress) == c.meta.ingress
  {
    WaitingSplit(s, Inputs(after), c);
  }

  lemma UnchangedReports(f: Numbering, reports: seq<Report>)
    requires forall r, o | r in reports && o in r.outcomes :: f(o.sequence, o.ingress) == o.ingress
    ensures Each(RenumberReport(f), reports) == reports
  {
    forall i | 0 <= i < |reports|
      ensures RenumberReport(f)(reports[i]) == reports[i]
    {
      var outcomes := reports[i].outcomes;
      assert reports[i] in reports && forall j | 0 <= j < |outcomes| :: outcomes[j] in outcomes;
      assert Each(RenumberOutcome(f), outcomes) == outcomes;
    }
  }

  /** What the predicates on a step say together. */
  ghost predicate Regular(step: StepFn) {
    KeepsApart(step) && Indifferent(step) && Advances(step) && ReportsAllDue(step) && ReportsFromWaiting(step)
  }

  lemma DueReportsUnchanged(step: StepFn, s: Runtime, after: seq<Op>, again: seq<Input>, m: nat)
    requires ReportsFromWaiting(step) && Advances(step) && Room(s.buffer, |Inputs(after)|) && m <= StepCount(after)
    requires SameCommands(again, Inputs(after)) && NumbersKept(after, s.clock, again)
    ensures var reports := Ticks(step, SubmitAll(s, Inputs(after)), m).1;
            Each(RenumberReport(From(s.buffer.next, again)), reports) == reports
  {
    var f, start := From(s.buffer.next, again), SubmitAll(s, Inputs(after));
    SubmitAllAppends(s, Inputs(after));
    ReportsFromStart(step, start, m);
    var reports := Ticks(step, start, m).1;
    forall r, o | r in reports && o in r.outcomes
      ensures f(o.sequence, o.ingress) == o.ingress
    {
      assert FromSome(r.outcomes, start.buffer.pending, s.clock + m - 1);
      var c :| c in start.buffer.pending && TellsOf(o, c, s.clock + m - 1);
      DueKeepsNumber(s, after, again, c);
    }
    UnchangedReports(f, reports);
  }

  lemma KeptNumbersTell(step: StepFn, s: Runtime, after: seq<Op>, again: seq<Input>, n: nat)
    requires Regular(step) && Room(s.buffer, |Inputs(after)|) && Timely(after, s.clock) && n <= |after|
    requires SameCommands(again, Inputs(after)) && NumbersKept(after, s.clock, again)
    ensures SameAfter(step, SubmitAll(s, again), s, after[..n])
  {
    ReplayOnward(step, s, after, n);
    ReplayOnwardAgain(step, s, after, From(s.buffer.next, again), again, n);
    StepsGrow(after, n);
    DueReportsUnchanged(step, s, after, again, StepCount(after[..n]));
  }

  lemma SequenceTells(b: Buffer, c: Command, d: Command)
    requires InArrivalOrder(b) && c in b.pending && d in b.pending && c.sequence == d.sequence
    ensures c == d
  {
    var i :| 0 <= i < |b.pending| && b.pending[i] == c;
    var j :| 0 <= j < |b.pending| && b.pending[j] == d;
    assert i == j;
  }

  /** Whatever is reported of the `i`-th command carries the number it was submitted under. */
  lemma ReportedNumber(step: StepFn, s: Runtime, inputs: seq<Input>, i: nat, m: nat, r: Report, o: Outcome)
    requires Advances(step) && ReportsFromWaiting(step) && Room(s.buffer, |inputs|) && i < |inputs| && m > 0
    requires r in Ticks(step, SubmitAll(s, inputs), m).1 && o in r.outcomes && o.sequence == s.buffer.next + i
    ensures o.ingress == inputs[i].meta.ingress
  {
    var start, c := SubmitAll(s, inputs), Commands(inputs, s.buffer.next)[i];
    SubmitAllAppends(s, inputs);
    ReportsFromStart(step, start, m);
    var d :| d in start.buffer.pending && TellsOf(o, d, s.clock + m - 1);
    assert start.buffer.pending[|s.buffer.pending| + i] == c;
    SequenceTells(start.buffer, c, d);
  }

  /** A number that was not kept shows at the end. */
  lemma LostNumberShows(step: StepFn, s: Runtime, after: seq<Op>, again: seq<Input>)
    requires Regular(step) && Room(s.buffer, |Inputs(after)|) && Timely(after, s.clock)
    requires SameCommands(again, Inputs(after)) && !NumbersKept(after, s.clock, again)
    ensures !SameAfter(step, SubmitAll(s, again), s, after[..|after|])
  {
    assert after[..|after|] == after;
    var inputs, m := Inputs(after), StepCount(after);
    var i :| 0 <= i < |again| && inputs[i].target < s.clock + m && again[i].meta.ingress != inputs[i].meta.ingress;
    ReplayOnward(step, s, after, |after|);
    SubmitAllAppends(s, again);
    var c, reports := Commands(again, s.buffer.next)[i], Ticks(step, SubmitAll(s, again), m).1;
    assert SubmitAll(s, again).buffer.pending[|s.buffer.pending| + i] == c;
    WaitingIsReported(step, SubmitAll(s, again), c, m);
    var k :| 0 <= k < |reports| && Mentioned(reports[k].outcomes, c.sequence);
    var j :| 0 <= j < |reports[k].outcomes| && reports[k].outcomes[j].sequence == c.sequence;
    var o := reports[k].outcomes[j];
    ReportedNumber(step, s, again, i, m, reports[k], o);
    if SameAfter(step, SubmitAll(s, again), s, after) {
      ReportedNumber(step, s, inputs, i, m, reports[k], o);
    }
  }

  lemma SameIsUnchanged(step: StepFn, start: Runtime, s: Runtime, ops: seq<Op>)
    ensures SameAfter(step, start, s, ops) == SameButIngress(step, start, s, (sequence: nat, ingress: nat) => ingress, ops)
  {
    UnchangedReports((sequence: nat, ingress: nat) => ingress, Live(step, s, ops).1);
  }

  lemma StepperRegular(systems: Systems)
    ensures Regular(Stepper(systems))
  {
    StepperKeepsApart(systems);
    StepperIndifferent(systems);
    StepperAdvances(systems);
    StepperReportsAllDue(systems);
    StepperReportsFromWaiting(systems);
  }

  /** Replay's reports are the live run's to the last field, at every point, exactly if no command arrived late and
      each command executed since the snapshot is submitted again under the ingress number it had. */
  lemma WholeReportsIff(systems: Systems, s: Runtime, before: seq<Op>, after: seq<Op>, logged: seq<Input>)
    requires InArrivalOrder(s.buffer) && s.buffer.next + |Inputs(before + after)| < U64
    requires LsnsIncrease(Inputs(before + after), s.buffer.included) && SameCommands(logged, Inputs(before + after))
    ensures var first := Live(Stepper(systems), s, before).0;
            var again := Later(logged, first.buffer.included);
            && |again| == |Inputs(after)|
            && ((forall n: nat | n <= |after| :: SameAfter(Stepper(systems), Resubmitted(first, logged), first, after[..n]))
                <==> Timely(after, first.clock) && NumbersKept(after, first.clock, again))
  {
    var step := Stepper(systems);
    StepperRegular(systems);
    StepperKeepsBooks(systems);
    StepperKeepsOrder(systems);
    StepperReportsOnlyWaiting(systems);
    ResubmittedAgain(step, s, before, after, logged);
    var first := Live(step, s, before).0;
    var again := Later(logged, first.buffer.included);
    if !Timely(after, first.clock) {
      var k := LateCommand(after, first.clock);
      LateDiffers(step, first, after, again, (sequence: nat, ingress: nat) => ingress, k);
      SameIsUnchanged(step, Resubmitted(first, logged), first, after[..k]);
    } else if NumbersKept(after, first.clock, again) {
      forall n: nat | n <= |after|
        ensures SameAfter(step, Resubmitted(first, logged), first, after[..n])
      {
        KeptNumbersTell(step, first, after, again, n);
      }
    } else {
      LostNumberShows(step, first, after, again);
    }
  }

  // ---- A command under its number, and under none ----

  const LIVE := Input(0, Create(LATE_OBJECT), Meta(7, 0, 1))
  const AGAIN := Input(0, Create(LATE_OBJECT), Meta(0, 0, 1))

  lemma OneTickReports(systems: Systems, input: Input)
    requires input == LIVE || input == AGAIN
    ensures Tick(systems, SubmitAll(Runtime(EMPTY_WORLD, FIRST_BUFFER, 0), [input])).1.outcomes ==
            [Outcome(1, input.meta.ingress, true, NoReason, 1)]
  {
    var s := Runtime(EMPTY_WORLD, FIRST_BUFFER, 0);
    var c := Command(1, 0, input.payload, input.meta);
    assert [input][..0] == [] && SubmitAll(s, [input]).buffer.pending == [c];
    assert SortBy(BySequence, []) == [];
    assert [c][..0] == [] && SortBy(BySequence, [c]) == [c];
    assert ApplyAll(EMPTY_WORLD, [c], 0).outcomes == [] + [Outcome(1, input.meta.ingress, true, NoReason, 1)];
  }

  lemma OneStepRuns(step: StepFn, s: Runtime, input: Input)
    ensures Ticks(step, SubmitAll(s, [input]), 1).1 == [step(SubmitAll(s, [input])).1]
    ensures Live(step, s, [Arrive(input), Step]).1 == [step(SubmitAll(s, [input])).1]
  {
    var arrival: seq<Op> := [Arrive(input)];
    assert [input][..0] == [] && arrival[..0] == [] && Live(step, s, arrival) == (SubmitAll(s, [input]), []);
    assert [Arrive(input), Step][..1] == arrival;
    assert Ticks(step, SubmitAll(s, [input]), 0) == (SubmitAll(s, [input]), []);
  }

  lemma LiveInTime()
    ensures Timely([Arrive(LIVE), Step], 0) && Inputs([Arrive(LIVE), Step]) == [LIVE]
  {
    var arrival: seq<Op> := [Arrive(LIVE)];
    assert arrival[..0] == [] && Inputs(arrival) == [LIVE];
    assert [Arrive(LIVE), Step][..1] == arrival;
  }

  /** In time, and still not the same reports: the live run tells of the ingress number seven, the replay of none. */
  lemma IngressIsLost(systems: Systems)
    ensures var s, step, ops := Runtime(EMPTY_WORLD, FIRST_BUFFER, 0), Stepper(systems), [Arrive(LIVE), Step];
            && SameCommands([AGAIN], Inputs(ops)) && Timely(ops, 0)
            && |Live(step, s, ops).1| == 1 && Live(step, s, ops).1[0].outcomes == [Outcome(1, 7, true, NoReason, 1)]
            && Ticks(step, SubmitAll(s, [AGAIN]), 1).1[0].outcomes == [Outcome(1, 0, true, NoReason, 1)]
  {
    var s, step := Runtime(EMPTY_WORLD, FIRST_BUFFER, 0), Stepper(systems);
    LiveInTime();
    OneTickReports(systems, LIVE);
    OneTickReports(systems, AGAIN);
    OneStepRuns(step, s, LIVE);
    OneStepRuns(step, s, AGAIN);
  }
}
