/** Replaying the log against the live run: restore a snapshot, submit every later logged command at once, step. */
module Replay {
  import opened Integers
  import opened WorldModel
  import opened CommandBuffer
  import opened Sorting

  /** Everything a step does to the world after the commands; it takes no other input. */
  type Systems = (WorldValue, nat) -> WorldValue

  /** The stable hash of a world. */
  type WorldHash = WorldValue -> nat

  datatype Runtime = Runtime(world: WorldValue, buffer: Buffer, clock: nat)

  datatype Report = Report(tick: nat, outcomes: seq<Outcome>, world: WorldValue)

  function Submit(s: Runtime, c: Input): Runtime {
    s.(buffer := Enqueued(s.buffer, c.target, c.payload, c.meta))
  }

  function Tick(systems: Systems, s: Runtime): (Runtime, Report) {
    var r := ApplyAll(s.world, SortBy(BySequence, s.buffer.pending), s.clock);
    var world := systems(r.world, s.clock);
    (Runtime(world, s.buffer.(pending := r.deferred), s.clock + 1), Report(s.clock, r.outcomes, world))
  }

  /** One step of the runtime, as a value. */
  type StepFn = Runtime -> (Runtime, Report)

  function Stepper(systems: Systems): StepFn {
    (s: Runtime) => Tick(systems, s)
  }

  /** A durable command as it is submitted, live or from the log: its LSN is in the metadata. */
  datatype Input = Input(target: nat, payload: Payload, meta: Meta)

  datatype Op = Arrive(input: Input) | Step

  type Progress = (Runtime, seq<Report>)

  function Stepped(step: StepFn, p: Progress): Progress {
    (step(p.0).0, p.1 + [step(p.0).1])
  }

  /** The live run: commands arrive between steps. */
  function Live(step: StepFn, s: Runtime, ops: seq<Op>): Progress {
    if ops == [] then (s, [])
    else
      var before := Live(step, s, ops[..|ops| - 1]);
      match ops[|ops| - 1]
      case Arrive(input) => (Submit(before.0, input), before.1)
      case Step => Stepped(step, before)
  }

  function SubmitAll(s: Runtime, inputs: seq<Input>): Runtime {
    if inputs == [] then s else Submit(SubmitAll(s, inputs[..|inputs| - 1]), inputs[|inputs| - 1])
  }

  function Ticks(step: StepFn, s: Runtime, n: nat): Progress {
    if n == 0 then (s, []) else Stepped(step, Ticks(step, s, n - 1))
  }

  function Inputs(ops: seq<Op>): seq<Input> {
    if ops == [] then []
    else Inputs(ops[..|ops| - 1]) + if ops[|ops| - 1].Arrive? then [ops[|ops| - 1].input] else []
  }

  function StepCount(ops: seq<Op>): nat {
    if ops == [] then 0 else StepCount(ops[..|ops| - 1]) + if ops[|ops| - 1].Step? then 1 else 0
  }

  /** Every command arrives before its target tick is stepped, or before the first step; the clock starts at `clock`. */
  predicate Timely(ops: seq<Op>, clock: nat) {
    ops == []
    || (var init, last := ops[..|ops| - 1], ops[|ops| - 1];
        Timely(init, clock) && (last.Arrive? && StepCount(init) > 0 ==> last.input.target >= clock + StepCount(init)))
  }

  predicate AllAtLeast(commands: seq<Command>, clock: nat) {
    forall i | 0 <= i < |commands| :: commands[i].target >= clock
  }

  /** `replay` is ahead of `live` by the commands `ahead`. */
  ghost predicate AheadBy(replay: Runtime, live: Runtime, ahead: seq<Command>) {
    && InArrivalOrder(live.buffer) && InArrivalOrder(replay.buffer)
    && replay.world == live.world && replay.clock == live.clock
    && replay.buffer.pending == live.buffer.pending + ahead
  }

  /** One step of both keeps them apart by the same commands, with the same report, while none of them is due. */
  lemma StepTogether(systems: Systems, replay: Runtime, live: Runtime, ahead: seq<Command>)
    requires AheadBy(replay, live, ahead) && AllAtLeast(ahead, live.clock + 1)
    ensures var (r, rr) := Tick(systems, replay);
            var (l, lr) := Tick(systems, live);
            rr == lr && AheadBy(r, l, ahead)
  {
    ArrivalOrderSorted(live.buffer.pending);
    ArrivalOrderSorted(replay.buffer.pending);
    NotDueWaits(live.world, live.buffer.pending, ahead, live.clock);
    DeferredOk(live);
    DeferredOk(replay);
  }

  lemma DeferredOk(s: Runtime)
    requires InArrivalOrder(s.buffer)
    ensures InArrivalOrder(s.buffer.(pending := ApplyAll(s.world, s.buffer.pending, s.clock).deferred))
  {
    DeferredInOrder(s.world, s.buffer.pending, s.clock);
    DeferredBounds(s.world, s.buffer.pending, s.clock, s.buffer.next);
  }

  /** The commands that submitting `inputs` from `next` on creates. */
  function Commands(inputs: seq<Input>, next: nat): (c: seq<Command>)
    ensures |c| == |inputs|
  {
    seq(|inputs|, i requires 0 <= i < |inputs| => Command(next + i, inputs[i].target, inputs[i].payload, inputs[i].meta))
  }

  /** The sequence space is not used up. */
  predicate Room(b: Buffer, n: nat) {
    InArrivalOrder(b) && b.next + n < U64
  }

  lemma {:induction false} SubmitAllAppends(s: Runtime, inputs: seq<Input>)
    requires Room(s.buffer, |inputs|)
    ensures var t := SubmitAll(s, inputs);
            && t.world == s.world && t.clock == s.clock && t.buffer.next == s.buffer.next + |inputs|
            && t.buffer.pending == s.buffer.pending + Commands(inputs, s.buffer.next)
            && InArrivalOrder(t.buffer)
  {
    if inputs != [] {
      var init, last := inputs[..|inputs| - 1], inputs[|inputs| - 1];
      SubmitAllAppends(s, init);
      assert Commands(inputs, s.buffer.next) == Commands(init, s.buffer.next) +
             [Command(s.buffer.next + |init|, last.target, last.payload, last.meta)];
    }
  }

  /** The replay and the live run after as many steps: the same reports, and apart only by the commands that
      have not arrived yet. */
  ghost predicate Apart(replay: Progress, live: Progress, s: Runtime, commands: seq<Command>, arrived: nat, steps: nat) {
    && arrived <= |commands| && replay.1 == live.1
    && live.0.clock == s.clock + steps && live.0.buffer.next == s.buffer.next + arrived
    && AheadBy(replay.0, live.0, commands[arrived..])
  }

  lemma ApartArrival(replay: Progress, live: Progress, s: Runtime, inputs: seq<Input>, arrived: nat, steps: nat)
    requires arrived < |inputs| && s.buffer.next + |inputs| < U64
    requires Apart(replay, live, s, Commands(inputs, s.buffer.next), arrived, steps)
    ensures Apart(replay, (Submit(live.0, inputs[arrived]), live.1), s, Commands(inputs, s.buffer.next), arrived + 1, steps)
  {
    var commands, t := Commands(inputs, s.buffer.next), Submit(live.0, inputs[arrived]);
    assert commands[arrived..] == [commands[arrived]] + commands[arrived + 1..];
    assert t.buffer.pending + commands[arrived + 1..] == live.0.buffer.pending + commands[arrived..];
  }

  /** A step keeps the two apart by the same commands while none of them is due. */
  ghost predicate KeepsApart(step: StepFn) {
    forall replay, live, s, commands, arrived: nat, steps: nat |
      Apart(replay, live, s, commands, arrived, steps) && AllAtLeast(commands[arrived..], live.0.clock + 1) ::
      Apart(Stepped(step, replay), Stepped(step, live), s, commands, arrived, steps + 1)
  }

  lemma ApartStep(systems: Systems, replay: Progress, live: Progress, s: Runtime, commands: seq<Command>, arrived: nat, steps: nat)
    requires Apart(replay, live, s, commands, arrived, steps) && AllAtLeast(commands[arrived..], live.0.clock + 1)
    ensures Apart(Stepped(Stepper(systems), replay), Stepped(Stepper(systems), live), s, commands, arrived, steps + 1)
  {
    StepTogether(systems, replay.0, live.0, commands[arrived..]);
    assert Stepper(systems)(live.0) == Tick(systems, live.0) && Stepper(systems)(replay.0) == Tick(systems, replay.0);
  }

  lemma StepperKeepsApart(systems: Systems)
    ensures KeepsApart(Stepper(systems))
  {
    forall replay, live, s, commands, arrived: nat, steps: nat |
      Apart(replay, live, s, commands, arrived, steps) && AllAtLeast(commands[arrived..], live.0.clock + 1)
      ensures Apart(Stepped(Stepper(systems), replay), Stepped(Stepper(systems), live), s, commands, arrived, steps + 1)
    {
      ApartStep(systems, replay, live, s, commands, arrived, steps);
    }
  }

  ghost predicate Follows(step: StepFn, s: Runtime, all: seq<Op>, n: nat)
    requires n <= |all|
  {
    Apart(Ticks(step, SubmitAll(s, Inputs(all)), StepCount(all[..n])), Live(step, s, all[..n]), s,
          Commands(Inputs(all), s.buffer.next), |Inputs(all[..n])|, StepCount(all[..n]))
  }

  lemma OneMoreOp(step: StepFn, s: Runtime, all: seq<Op>, n: nat)
    requires n < |all|
    ensures all[n].Arrive? ==>
              && Live(step, s, all[..n + 1]) == (Submit(Live(step, s, all[..n]).0, all[n].input), Live(step, s, all[..n]).1)
              && StepCount(all[..n + 1]) == StepCount(all[..n]) && |Inputs(all[..n + 1])| == |Inputs(all[..n])| + 1
    ensures all[n].Step? ==>
              && Live(step, s, all[..n + 1]) == Stepped(step, Live(step, s, all[..n]))
              && StepCount(all[..n + 1]) == StepCount(all[..n]) + 1 && Inputs(all[..n + 1]) == Inputs(all[..n])
  {
    assert all[..n + 1][..n] == all[..n];
  }

  lemma NotYetDue(all: seq<Op>, clock: nat, next: nat, n: nat)
    requires n <= |all| && Timely(all, clock) && StepCount(all[..n]) > 0
    ensures |Inputs(all[..n])| <= |Inputs(all)|
    ensures AllAtLeast(Commands(Inputs(all), next)[|Inputs(all[..n])|..], clock + StepCount(all[..n]))
  {
    TimelyInputs(all, clock, n);
  }

  lemma FollowsArrival(step: StepFn, s: Runtime, all: seq<Op>, n: nat)
    requires n < |all| && all[n].Arrive? && s.buffer.next + |Inputs(all)| < U64 && Follows(step, s, all, n)
    ensures Follows(step, s, all, n + 1)
  {
    OneMoreOp(step, s, all, n);
    InputsPrefix(all, n);
    ApartArrival(Ticks(step, SubmitAll(s, Inputs(all)), StepCount(all[..n])), Live(step, s, all[..n]), s,
                 Inputs(all), |Inputs(all[..n])|, StepCount(all[..n]));
  }

  lemma FollowsStep(step: StepFn, s: Runtime, all: seq<Op>, n: nat)
    requires n < |all| && all[n].Step? && Timely(all, s.clock) && Follows(step, s, all, n) && KeepsApart(step)
    ensures Follows(step, s, all, n + 1)
  {
    OneMoreOp(step, s, all, n);
    NotYetDue(all, s.clock, s.buffer.next, n + 1);
    assert Apart(Stepped(step, Ticks(step, SubmitAll(s, Inputs(all)), StepCount(all[..n]))), Stepped(step, Live(step, s, all[..n])), s,
                 Commands(Inputs(all), s.buffer.next), |Inputs(all[..n])|, StepCount(all[..n]) + 1);
  }

  lemma {:induction false} ReplayFollows(step: StepFn, s: Runtime, all: seq<Op>, n: nat)
    requires n <= |all| && Room(s.buffer, |Inputs(all)|) && Timely(all, s.clock) && KeepsApart(step)
    ensures Follows(step, s, all, n)
  {
    if n == 0 {
      SubmitAllAppends(s, Inputs(all));
      assert all[..0] == [];
    } else {
      ReplayFollows(step, s, all, n - 1);
      if all[n - 1].Arrive? {
        FollowsArrival(step, s, all, n - 1);
      } else {
        FollowsStep(step, s, all, n - 1);
      }
    }
  }

  lemma {:induction false} InputsPrefix(all: seq<Op>, n: nat)
    requires n <= |all|
    ensures Inputs(all[..n]) <= Inputs(all)
    ensures n < |all| && all[n].Arrive? ==>
              |Inputs(all[..n])| < |Inputs(all)| && Inputs(all)[|Inputs(all[..n])|] == all[n].input
    decreases |all| - n
  {
    if n == |all| {
      assert all[..n] == all;
    } else {
      InputsPrefix(all, n + 1);
      assert all[..n + 1][..n] == all[..n];
    }
  }

  /** Whatever arrives from the `n`-th operation on is aimed at the clock there or later. */
  lemma {:induction false} TimelyInputs(all: seq<Op>, clock: nat, n: nat)
    requires n <= |all| && Timely(all, clock) && StepCount(all[..n]) > 0
    ensures Inputs(all[..n]) <= Inputs(all)
    ensures forall i | |Inputs(all[..n])| <= i < |Inputs(all)| :: Inputs(all)[i].target >= clock + StepCount(all[..n])
    decreases |all|
  {
    InputsPrefix(all, n);
    if n == |all| {
      assert all[..n] == all;
    } else {
      var init := all[..|all| - 1];
      assert init[..n] == all[..n];
      TimelyInputs(init, clock, n);
      StepsGrow(init, n);
    }
  }

  lemma {:induction false} StepsGrow(all: seq<Op>, n: nat)
    requires n <= |all|
    ensures StepCount(all[..n]) <= StepCount(all)
  {
    if n < |all| {
      StepsGrow(all[..|all| - 1], n);
      assert all[..|all| - 1][..n] == all[..n];
    } else {
      assert all[..n] == all;
    }
  }

  // ---- The whole log ----

  /** The logged commands above an LSN. */
  function Later(log: seq<Input>, lsn: nat): seq<Input> {
    if log == [] then []
    else Later(log[..|log| - 1], lsn) + if log[|log| - 1].meta.durableLsn > lsn then [log[|log| - 1]] else []
  }

  predicate LsnsIncrease(log: seq<Input>, above: nat) {
    && (forall i | 0 <= i < |log| :: log[i].meta.durableLsn > above)
    && (forall i, j | 0 <= i < j < |log| :: log[i].meta.durableLsn < log[j].meta.durableLsn)
  }

  lemma LsnsBefore(init: seq<Input>, last: Input, above: nat)
    requires LsnsIncrease(init + [last], above)
    ensures LsnsIncrease(init, above) && last.meta.durableLsn > if init == [] then above else init[|init| - 1].meta.durableLsn
  {
    var log := init + [last];
    assert forall i | 0 <= i < |init| :: log[i] == init[i];
    assert log[|init|] == last;
  }

  lemma LiveLast(step: StepFn, s: Runtime, init: seq<Op>, last: Op)
    ensures var before := Live(step, s, init);
            Live(step, s, init + [last]) == if last.Arrive? then (Submit(before.0, last.input), before.1) else Stepped(step, before)
    ensures Inputs(init + [last]) == if last.Arrive? then Inputs(init) + [last.input] else Inputs(init)
  {
    assert (init + [last])[..|init|] == init;
    assert Inputs(init) + [] == Inputs(init);
  }

  lemma IncludedNext(s: Runtime, input: Input)
    requires 0 < s.buffer.next && s.buffer.next + 1 < U64 && input.meta.durableLsn > s.buffer.included
    ensures var b := Submit(s, input).buffer; b.included == input.meta.durableLsn && b.next == s.buffer.next + 1
  {
  }

  lemma {:induction false} IncludedIsLast(step: StepFn, s: Runtime, ops: seq<Op>)
    requires LsnsIncrease(Inputs(ops), s.buffer.included) && s.buffer.next > 0 && s.buffer.next + |Inputs(ops)| < U64
    requires KeepsBooks(step)
    ensures var b := Live(step, s, ops).0.buffer;
            && b.included == (if Inputs(ops) == [] then s.buffer.included else Inputs(ops)[|Inputs(ops)| - 1].meta.durableLsn)
            && b.next == s.buffer.next + |Inputs(ops)|
  {
    if ops != [] {
      var init, last := ops[..|ops| - 1], ops[|ops| - 1];
      LiveLast(step, s, init, last);
      assert ops == init + [last];
      if last.Arrive? {
        LsnsBefore(Inputs(init), last.input, s.buffer.included);
        IncludedIsLast(step, s, init);
        IncludedNext(Live(step, s, init).0, last.input);
      } else {
        IncludedIsLast(step, s, init);
      }
    }
  }

  lemma {:induction false} NoneLater(a: seq<Input>, lsn: nat)
    requires forall i | 0 <= i < |a| :: a[i].meta.durableLsn <= lsn
    ensures Later(a, lsn) == []
  {
    if a != [] {
      NoneLater(a[..|a| - 1], lsn);
    }
  }

  lemma {:induction false} LaterOfConcat(a: seq<Input>, b: seq<Input>, lsn: nat)
    requires forall i | 0 <= i < |a| :: a[i].meta.durableLsn <= lsn
    requires forall i | 0 <= i < |b| :: b[i].meta.durableLsn > lsn
    ensures Later(a + b, lsn) == b
  {
    if b == [] {
      assert a + b == a;
      NoneLater(a, lsn);
    } else {
      var init, last := b[..|b| - 1], b[|b| - 1];
      LaterOfConcat(a, init, lsn);
      assert (a + b)[..|a + b| - 1] == a + init && (a + b)[|a + b| - 1] == last;
      assert b == init + [last];
    }
  }

  lemma {:induction false} InputsConcat(a: seq<Op>, b: seq<Op>)
    ensures Inputs(a + b) == Inputs(a) + Inputs(b) && StepCount(a + b) == StepCount(a) + StepCount(b)
  {
    if b == [] {
      assert a + b == a;
    } else {
      assert (a + b)[..|a + b| - 1] == a + b[..|b| - 1];
      InputsConcat(a, b[..|b| - 1]);
    }
  }

  ghost predicate KeepsBooks(step: StepFn) {
    forall r :: step(r).0.buffer.included == r.buffer.included && step(r).0.buffer.next == r.buffer.next
  }

  lemma StepperKeepsBooks(systems: Systems)
    ensures KeepsBooks(Stepper(systems))
  {
  }

  lemma LsnsSplit(a: seq<Input>, b: seq<Input>, above: nat)
    requires LsnsIncrease(a + b, above)
    ensures LsnsIncrease(a, above) && LsnsIncrease(b, if a == [] then above else a[|a| - 1].meta.durableLsn)
    ensures forall i | 0 <= i < |a| :: a[i].meta.durableLsn <= a[|a| - 1].meta.durableLsn
  {
    assert forall i | 0 <= i < |a| :: (a + b)[i] == a[i];
    assert forall i | 0 <= i < |b| :: (a + b)[|a| + i] == b[i];
  }

  /** The log up to the snapshot is what the snapshot includes; the rest is what replay has to submit. */
  lemma LogSplits(step: StepFn, s: Runtime, before: seq<Op>, after: seq<Op>)
    requires KeepsBooks(step) && s.buffer.next > 0 && s.buffer.next + |Inputs(before + after)| < U64
    requires LsnsIncrease(Inputs(before + after), s.buffer.included)
    ensures var taken := Live(step, s, before).0.buffer;
            Later(Inputs(before + after), taken.included) == Inputs(after) && taken.next + |Inputs(after)| < U64
  {
    InputsConcat(before, after);
    LsnsSplit(Inputs(before), Inputs(after), s.buffer.included);
    IncludedIsLast(step, s, before);
    LaterOfConcat(Inputs(before), Inputs(after), Live(step, s, before).0.buffer.included);
  }

  /** The state a snapshot restores to. */
  function Restored(s: Runtime): Runtime {
    s.(buffer := s.buffer.(pending := SortBy(BySequence, s.buffer.pending)))
  }

  /** What a step leaves waiting is in order of arrival. */
  ghost predicate KeepsOrder(step: StepFn) {
    forall r: Runtime | InArrivalOrder(r.buffer) :: InArrivalOrder(step(r).0.buffer)
  }

  lemma StepperKeepsOrder(systems: Systems)
    ensures KeepsOrder(Stepper(systems))
  {
    forall r: Runtime | InArrivalOrder(r.buffer)
      ensures InArrivalOrder(Tick(systems, r).0.buffer)
    {
      ArrivalOrderSorted(r.buffer.pending);
      DeferredOk(r);
    }
  }

  ghost predicate Advances(step: StepFn) {
    forall r :: step(r).0.clock == r.clock + 1
  }

  lemma StepperAdvances(systems: Systems)
    ensures Advances(Stepper(systems))
  {
  }

  lemma SubmitKeepsOrder(s: Runtime, input: Input)
    requires InArrivalOrder(s.buffer) && s.buffer.next + 1 < U64
    ensures InArrivalOrder(Submit(s, input).buffer) && Submit(s, input).buffer.next == s.buffer.next + 1
  {
  }

  lemma {:induction false} LiveKeepsOrder(step: StepFn, s: Runtime, ops: seq<Op>)
    requires KeepsOrder(step) && KeepsBooks(step) && Room(s.buffer, |Inputs(ops)|)
    ensures var t := Live(step, s, ops).0; InArrivalOrder(t.buffer) && t.buffer.next == s.buffer.next + |Inputs(ops)|
  {
    if ops != [] {
      InputsPrefix(ops, |ops| - 1);
      var before := Live(step, s, ops[..|ops| - 1]).0;
      LiveKeepsOrder(step, s, ops[..|ops| - 1]);
      if ops[|ops| - 1].Arrive? {
        SubmitKeepsOrder(before, ops[|ops| - 1].input);
      }
    }
  }

  /** The runtime from which replay starts: the snapshot restored, every logged command above its LSN submitted. */
  function Resubmitted(first: Runtime, log: seq<Input>): Runtime {
    SubmitAll(Restored(first), Later(log, first.buffer.included))
  }

  /** After as many steps as the live run made in `ops`, replay has reported the same and has the same world. */
  predicate SameAfter(step: StepFn, start: Runtime, first: Runtime, ops: seq<Op>) {
    var live, replay := Live(step, first, ops), Ticks(step, start, StepCount(ops));
    replay.1 == live.1 && replay.0.world == live.0.world && replay.0.clock == live.0.clock
  }

  lemma BoundaryFacts(step: StepFn, s: Runtime, before: seq<Op>, after: seq<Op>)
    requires KeepsOrder(step) && KeepsBooks(step)
    requires InArrivalOrder(s.buffer) && s.buffer.next + |Inputs(before + after)| < U64
    requires LsnsIncrease(Inputs(before + after), s.buffer.included)
    ensures var first := Live(step, s, before).0;
            && Restorable(first.buffer) && Room(first.buffer, |Inputs(after)|) && Restored(first) == first
            && Later(Inputs(before + after), first.buffer.included) == Inputs(after)
  {
    InputsConcat(before, after);
    LogSplits(step, s, before, after);
    LiveKeepsOrder(step, s, before);
    SnapshotRestores(Live(step, s, before).0.buffer);
  }

  /** From any state in order of arrival: if every command arrives before its tick is stepped, replay follows. */
  lemma ReplayOnward(step: StepFn, s: Runtime, after: seq<Op>, n: nat)
    requires n <= |after| && KeepsApart(step) && Room(s.buffer, |Inputs(after)|) && Timely(after, s.clock)
    ensures SameAfter(step, SubmitAll(s, Inputs(after)), s, after[..n])
  {
    ReplayFollows(step, s, after, n);
  }
}
