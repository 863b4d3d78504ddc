/** Ingress numbers: the log keeps none, so replay gives commands others than they had, and only the reports tell. */
module Ingress {
  import opened WorldModel
  import opened CommandBuffer
  import opened Replay
  import opened Sorting

  /** The ingress number of a command, by its sequence number and the one it had. */
  type Numbering = (nat, nat) -> nat

  function Each<T, U>(f: T -> U, s: seq<T>): (r: seq<U>)
    ensures |r| == |s| && forall i | 0 <= i < |s| :: r[i] == f(s[i])
  {
    seq(|s|, i requires 0 <= i < |s| => f(s[i]))
  }

  function Renumber(f: Numbering): Command -> Command {
    (c: Command) => c.(meta := c.meta.(ingress := f(c.sequence, c.meta.ingress)))
  }

  function RenumberOutcome(f: Numbering): Outcome -> Outcome {
    (o: Outcome) => o.(ingress := f(o.sequence, o.ingress))
  }

  function RenumberReport(f: Numbering): Report -> Report {
    (r: Report) => r.(outcomes := Each(RenumberOutcome(f), r.outcomes))
  }

  function RenumberRuntime(f: Numbering, s: Runtime): Runtime {
    s.(buffer := s.buffer.(pending := Each(Renumber(f), s.buffer.pending)))
  }

  predicate PendingBelow(pending: seq<Command>, bound: nat) {
    forall i | 0 <= i < |pending| :: pending[i].sequence < bound
  }

  // ---- Execution does not depend on them ----

  lemma EachAppends<T, U>(f: T -> U, s: seq<T>, x: T)
    ensures Each(f, s + [x]) == Each(f, s) + [f(x)]
  {
  }

  lemma EachOfConcat<T, U>(f: T -> U, a: seq<T>, b: seq<T>)
    ensures Each(f, a + b) == Each(f, a) + Each(f, b)
  {
  }

  /** The order does not look at what `f` changes. */
  ghost predicate Overlooks<T(!new)>(le: (T, T) -> bool, f: T -> T) {
    forall a, b :: le(f(a), f(b)) == le(a, b)
  }

  lemma {:induction false} InsertEach<T(!new)>(le: (T, T) -> bool, f: T -> T, s: seq<T>, x: T)
    requires Overlooks(le, f)
    ensures Sorting.Insert(le, Each(f, s), f(x)) == Each(f, Sorting.Insert(le, s, x))
  {
    if s == [] {
    } else if le(x, s[0]) {
      EachOfConcat(f, [x], s);
    } else {
      InsertEach(le, f, s[1..], x);
      assert Each(f, s)[1..] == Each(f, s[1..]);
      EachOfConcat(f, [s[0]], Sorting.Insert(le, s[1..], x));
    }
  }

  lemma SortLast<T>(le: (T, T) -> bool, init: seq<T>, last: T)
    ensures SortBy(le, init + [last]) == Sorting.Insert(le, SortBy(le, init), last)
  {
    assert (init + [last])[..|init|] == init;
  }

  lemma {:induction false} SortEach<T(!new)>(le: (T, T) -> bool, f: T -> T, s: seq<T>)
    requires Overlooks(le, f)
    ensures SortBy(le, Each(f, s)) == Each(f, SortBy(le, s))
  {
    if s != [] {
      var init, last := s[..|s| - 1], s[|s| - 1];
      assert s == init + [last];
      SortEach(le, f, init);
      SortLast(le, init, last);
      SortLast(le, Each(f, init), f(last));
      InsertEach(le, f, SortBy(le, init), last);
      EachAppends(f, init, last);
    }
  }

  lemma {:induction false} ApplyRenumbered(f: Numbering, w: WorldValue, commands: seq<Command>, tick: nat)
    ensures var r := ApplyAll(w, commands, tick);
            ApplyAll(w, Each(Renumber(f), commands), tick) ==
            Applied(r.world, Each(RenumberOutcome(f), r.outcomes), Each(Renumber(f), r.deferred))
  {
    if commands != [] {
      var init, c := commands[..|commands| - 1], commands[|commands| - 1];
      ApplyRenumbered(f, w, init, tick);
      var before := ApplyAll(w, init, tick);
      EachAppends(Renumber(f), before.deferred, c);
      EachAppends(RenumberOutcome(f), before.outcomes, Execute(before.world, c).1);
      assert Each(Renumber(f), commands)[..|commands| - 1] == Each(Renumber(f), init);
    }
  }

  /** Renumbering the commands that wait renumbers what is reported, and nothing else. */
  ghost predicate Indifferent(step: StepFn) {
    forall f: Numbering, s: Runtime :: step(RenumberRuntime(f, s)) == (RenumberRuntime(f, step(s).0), RenumberReport(f)(step(s).1))
  }

  lemma SortRenumbered(f: Numbering, pending: seq<Command>)
    ensures SortBy(BySequence, Each(Renumber(f), pending)) == Each(Renumber(f), SortBy(BySequence, pending))
  {
    assert Overlooks(BySequence, Renumber(f));
    SortEach(BySequence, Renumber(f), pending);
  }

  /** What a tick makes of the commands' results. */
  function After(systems: Systems, s: Runtime, r: Applied): (Runtime, Report) {
    var world := systems(r.world, s.clock);
    (Runtime(world, s.buffer.(pending := r.deferred), s.clock + 1), Report(s.clock, r.outcomes, world))
  }

  lemma AfterRenumbered(systems: Systems, f: Numbering, s: Runtime, r: Applied)
    ensures After(systems, RenumberRuntime(f, s), Applied(r.world, Each(RenumberOutcome(f), r.outcomes), Each(Renumber(f), r.deferred)))
         == (RenumberRuntime(f, After(systems, s, r).0), RenumberReport(f)(After(systems, s, r).1))
  {
  }

  lemma TickRenumbered(systems: Systems, f: Numbering, s: Runtime)
    ensures Tick(systems, RenumberRuntime(f, s)) == (RenumberRuntime(f, Tick(systems, s).0), RenumberReport(f)(Tick(systems, s).1))
  {
    var sorted := SortBy(BySequence, s.buffer.pending);
    SortRenumbered(f, s.buffer.pending);
    ApplyRenumbered(f, s.world, sorted, s.clock);
    AfterRenumbered(systems, f, s, ApplyAll(s.world, sorted, s.clock));
  }

  lemma StepperIndifferent(systems: Systems)
    ensures Indifferent(Stepper(systems))
  {
    forall f: Numbering, s: Runtime
      ensures var step := Stepper(systems);
              step(RenumberRuntime(f, s)) == (RenumberRuntime(f, step(s).0), RenumberReport(f)(step(s).1))
    {
      TickRenumbered(systems, f, s);
    }
  }

  lemma {:induction false} TicksRenumbered(step: StepFn, f: Numbering, s: Runtime, n: nat)
    requires Indifferent(step)
    ensures var run := Ticks(step, s, n); Ticks(step, RenumberRuntime(f, s), n) == (RenumberRuntime(f, run.0), Each(RenumberReport(f), run.1))
  {
    if n > 0 {
      TicksRenumbered(step, f, s, n - 1);
      var before := Ticks(step, s, n - 1);
      EachAppends(RenumberReport(f), before.1, step(before.0).1);
    }
  }

  // ---- Commands submitted again ----

  /** The same commands, whatever their ingress numbers. */
  predicate SameCommands(again: seq<Input>, inputs: seq<Input>) {
    && |again| == |inputs|
    && forall i | 0 <= i < |inputs| :: again[i] == inputs[i].(meta := inputs[i].meta.(ingress := again[i].meta.ingress))
  }

  lemma SameCommandsPrefix(again: seq<Input>, inputs: seq<Input>)
    requires SameCommands(again, inputs) && inputs != []
    ensures SameCommands(again[..|again| - 1], inputs[..|inputs| - 1])
  {
  }

  lemma {:induction false} SameLater(again: seq<Input>, inputs: seq<Input>, lsn: nat)
    requires SameCommands(again, inputs)
    ensures SameCommands(Later(again, lsn), Later(inputs, lsn))
  {
    if inputs != [] {
      SameCommandsPrefix(again, inputs);
      SameLater(again[..|again| - 1], inputs[..|inputs| - 1], lsn);
    }
  }

  /** The commands with sequence numbers from `next` on carry what they carry in `again`, all others what they had. */
  function IngressOf(next: nat, again: seq<Input>, sequence: nat, ingress: nat): nat {
    if next <= sequence < next + |again| then again[sequence - next].meta.ingress else ingress
  }

  function From(next: nat, again: seq<Input>): Numbering {
    (sequence: nat, ingress: nat) => IngressOf(next, again, sequence, ingress)
  }

  /** What `f` makes of commands submitted from `next` on is what they carry in `again`, and it leaves all before. */
  ghost predicate Gives(f: Numbering, next: nat, again: seq<Input>) {
    && (forall sequence: nat, ingress: nat | sequence < next :: f(sequence, ingress) == ingress)
    && forall sequence: nat, ingress: nat | next <= sequence < next + |again| :: f(sequence, ingress) == again[sequence - next].meta.ingress
  }

  lemma {:induction false} SameIncluded(s: Runtime, again: seq<Input>, inputs: seq<Input>)
    requires SameCommands(again, inputs)
    ensures SubmitAll(s, again).buffer.included == SubmitAll(s, inputs).buffer.included
    ensures SubmitAll(s, again).buffer.next == SubmitAll(s, inputs).buffer.next
  {
    if inputs != [] {
      SameCommandsPrefix(again, inputs);
      SameIncluded(s, again[..|again| - 1], inputs[..|inputs| - 1]);
    }
  }

  lemma NumberedAgain(f: Numbering, again: seq<Input>, inputs: seq<Input>, next: nat, i: nat)
    requires Gives(f, next, again) && SameCommands(again, inputs) && i < |inputs|
    ensures Commands(again, next)[i] == Renumber(f)(Commands(inputs, next)[i])
  {
    assert f(next + i, inputs[i].meta.ingress) == again[i].meta.ingress;
  }

  lemma AllNumberedAgain(f: Numbering, pending: seq<Command>, again: seq<Input>, inputs: seq<Input>, next: nat)
    requires Gives(f, next, again) && SameCommands(again, inputs) && PendingBelow(pending, next)
    ensures pending + Commands(again, next) == Each(Renumber(f), pending + Commands(inputs, next))
  {
    EachOfConcat(Renumber(f), pending, Commands(inputs, next));
    forall i | 0 <= i < |inputs|
      ensures Commands(again, next)[i] == Renumber(f)(Commands(inputs, next)[i])
    {
      NumberedAgain(f, again, inputs, next, i);
    }
    assert Commands(again, next) == Each(Renumber(f), Commands(inputs, next));
    forall i | 0 <= i < |pending|
      ensures Renumber(f)(pending[i]) == pending[i]
    {
      assert f(pending[i].sequence, pending[i].meta.ingress) == pending[i].meta.ingress;
    }
    assert pending == Each(Renumber(f), pending);
  }

  /** Submitting the same commands under other ingress numbers renumbers them, and nothing else. */
  lemma SubmittedAgain(s: Runtime, f: Numbering, again: seq<Input>, inputs: seq<Input>)
    requires Gives(f, s.buffer.next, again) && SameCommands(again, inputs) && Room(s.buffer, |inputs|)
    ensures SubmitAll(s, again) == RenumberRuntime(f, SubmitAll(s, inputs))
  {
    SubmitAllAppends(s, again);
    SubmitAllAppends(s, inputs);
    SameIncluded(s, again, inputs);
    AllNumberedAgain(f, s.buffer.pending, again, inputs, s.buffer.next);
  }

  // ---- Replay against the live run ----

  /** After as many steps as the live run made in `ops`, replay has the same world and clock, and has reported the same
      but for the ingress numbers. */
  predicate SameButIngress(step: StepFn, start: Runtime, first: Runtime, f: Numbering, ops: seq<Op>) {
    var live, replay := Live(step, first, ops), Ticks(step, start, StepCount(ops));
    replay.1 == Each(RenumberReport(f), live.1) && replay.0.world == live.0.world && replay.0.clock == live.0.clock
  }

  lemma RenumberedFollows(step: StepFn, start: Runtime, first: Runtime, f: Numbering, ops: seq<Op>)
    requires Indifferent(step) && SameAfter(step, start, first, ops)
    ensures SameButIngress(step, RenumberRuntime(f, start), first, f, ops)
  {
    TicksRenumbered(step, f, start, StepCount(ops));
  }
  /** If every command arrives before its tick is stepped, replay follows but for the ingress numbers. */
  lemma ReplayOnwardAgain(step: StepFn, s: Runtime, after: seq<Op>, f: Numbering, again: seq<Input>, n: nat)
    requires n <= |after| && KeepsApart(step) && Indifferent(step) && Room(s.buffer, |Inputs(after)|) && Timely(after, s.clock)
    requires Gives(f, s.buffer.next, again) && SameCommands(again, Inputs(after))
    ensures SameButIngress(step, SubmitAll(s, again), s, f, after[..n])
  {
    ReplayOnward(step, s, after, n);
    SubmittedAgain(s, f, again, Inputs(after));
    RenumberedFollows(step, SubmitAll(s, Inputs(after)), s, f, after[..n]);
  }
}
