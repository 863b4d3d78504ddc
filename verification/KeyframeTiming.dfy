/** When keyframes are sent, told from the events of a run: what calls for one, and when the next is due. */
module KeyframeTiming {
  import opened Options
  import opened StreamTypes
  import opened Connection
  import opened FrameSpec
  import opened StreamRun
  import opened StreamHistory
  import opened StreamCoherence

  /** The last keyframe: the policy it was built under, and the tick by which the next one is due. */
  datatype Last = Last(policy: nat, due: nat)

  /** Whether a keyframe was asked for since the last one, and what that was. */
  datatype Plan = Plan(asked: bool, last: Option<Last>)

  function Unmapped(fids: map<WorldId, FeatureId>, visible: seq<WorldId>): set<WorldId> {
    set w | w in visible && w !in fids
  }

  /** More WIDs would need FIDs than there are; those in view are only counted when the visible set is new. */
  predicate RunsOut(c: Conn, input: BuildInput) {
    |c.table.fids| + (if input.fromCache then 0 else |Unmapped(c.table.fids, input.visible)|) > input.cfg.maxFids
  }

  /** Something calls for a keyframe at once: it was asked for, the policy is another one, or FIDs run out. */
  predicate Called(p: Plan, c: Conn, input: BuildInput) {
    p.asked || p.last == None || p.last.value.policy != input.policyVersion || RunsOut(c, input)
  }

  /** A frame was sent, and not all that is in flight is still queued. */
  predicate Dropped(s: Run, input: BuildInput, t: Run) {
    |t.conn.queue.records| <= if RunsOut(s.conn, input) then 0 else |s.conn.queue.records|
  }

  function Due(p: Plan, c: Conn, input: BuildInput): nat
    requires input.phase < input.cfg.keyframeInterval
  {
    input.tick + input.cfg.keyframeInterval - if Called(p, c, input) then input.phase else 0
  }

  function NextPlan(p: Plan, s: Run, e: Event, t: Run): Plan {
    match e
    case Tick(input, _, frame) =>
      if frame == None || input.phase >= input.cfg.keyframeInterval then p
      else if frame.value.Keyframe? then Plan(Dropped(s, input, t), Some(Last(input.policyVersion, Due(p, s.conn, input))))
      else p.(asked := p.asked || Dropped(s, input, t))
    case Ack(_) => p
    case Reconnect => p.(asked := true)
    case AskKeyframe => p.(asked := true)
  }

  /** The plan before event `i`; a new connection asks for a keyframe. */
  function PlanAt(states: seq<Run>, events: seq<Event>, i: nat): Plan
    requires i <= |events| && |states| == |events| + 1
  {
    if i == 0 then Plan(true, None) else NextPlan(PlanAt(states, events, i - 1), states[i - 1], events[i - 1], states[i])
  }

  predicate SendsKeyframe(e: Event) {
    e.Tick? && e.frame.Some? && e.frame.value.Keyframe?
  }

  // ---- The plan and the connection's schedule ----

  lemma {:induction false} UnmappedAreCounted(fids: map<WorldId, FeatureId>, visible: seq<WorldId>)
    requires Ascending(visible)
    ensures CountUnmapped(fids, visible) == |Unmapped(fids, visible)|
  {
    if visible == [] {
      assert Unmapped(fids, visible) == {};
    } else {
      var init, last := visible[..|visible| - 1], visible[|visible| - 1];
      UnmappedAreCounted(fids, init);
      UnmappedOneMore(fids, init, last);
      assert visible == init + [last];
    }
  }

  lemma UnmappedOneMore(fids: map<WorldId, FeatureId>, init: seq<WorldId>, last: WorldId)
    requires Ascending(init + [last])
    ensures |Unmapped(fids, init + [last])| == |Unmapped(fids, init)| + if last in fids then 0 else 1
  {
    forall x | x in init
      ensures x < last
    {
      var i :| 0 <= i < |init| && init[i] == x;
      assert (init + [last])[i] < (init + [last])[|init|];
    }
    assert Unmapped(fids, init + [last]) == Unmapped(fids, init) + if last in fids then {} else {last};
  }

  lemma RunsOutIff(hash: Hasher, c: Conn, input: BuildInput)
    requires input.Ok(hash)
    ensures RunsOut(c, input) <==> Exhausted(c, input)
  {
    UnmappedAreCounted(c.table.fids, input.visible);
  }

  /** The connection's schedule is the plan's. */
  predicate Keeps(p: Plan, c: Conn) {
    && c.schedule.needsKeyframe == p.asked
    && (p.last == None ==> p.asked)
    && (p.last.Some? ==> c.schedule.policyVersion == p.last.value.policy && c.schedule.nextKeyframe == p.last.value.due && p.last.value.due > 0)
  }

  lemma ForcedIff(hash: Hasher, p: Plan, c: Conn, input: BuildInput)
    requires Keeps(p, c) && input.Ok(hash)
    ensures Forced(c, input) <==> Called(p, c, input)
    ensures BuildsKeyframe(c, input) <==> Called(p, c, input) || input.tick >= p.last.value.due
  {
    RunsOutIff(hash, c, input);
  }

  lemma FrameKeeps(hash: Hasher, p: Plan, s: Run, input: BuildInput, trace: BuildTrace, frame: StateFrame, t: Run)
    requires Bookkept(s) && Keeps(p, s.conn) && Ticks(hash)(s, input, trace, Some(frame), t)
    ensures Keeps(NextPlan(p, s, Tick(input, trace, Some(frame)), t), t.conn)
    ensures frame.Keyframe? <==> Called(p, s.conn, input) || input.tick >= p.last.value.due
  {
    assert TickStep(hash, s, input, trace, Some(frame), t);
    RunsOutIff(hash, s.conn, input);
    ForcedIff(hash, p, s.conn, input);
    FrameSent(hash, s, input, trace, frame, t);
    var g := SendingOf(s, input, trace, frame);
    EvictionAsksKeyframe(g.p, input, g.ops, t.conn);
  }

  lemma StepKeepsPlan(hash: Hasher, p: Plan, s: Run, e: Event, t: Run)
    requires Bookkept(s) && Keeps(p, s.conn) && Steps(hash)(s, e, t)
    ensures Keeps(NextPlan(p, s, e, t), t.conn)
    ensures e.Tick? ==> (SendsKeyframe(e) <==> Called(p, s.conn, e.input) || e.input.tick >= p.last.value.due)
  {
    match e
    case Tick(input, trace, frame) =>
      if frame == None {
        NoFrameSent(hash, s, input, trace, t);
        assert TickStep(hash, s, input, trace, frame, t);
        ForcedIff(hash, p, s.conn, input);
      } else {
        FrameKeeps(hash, p, s, input, trace, frame.value, t);
      }
    case Ack(_) =>
    case Reconnect =>
    case AskKeyframe =>
  }

  lemma RunStep(hash: Hasher, states: seq<Run>, events: seq<Event>, i: nat)
    requires IsRun(hash, states, events) && i < |events|
    ensures Bookkept(states[i]) && Steps(hash)(states[i], events[i], states[i + 1])
  {
    RunKeeps(hash, states[..i + 1], events[..i]);
  }

  predicate PlansFrom(states: seq<Run>, events: seq<Event>, k: nat, plan: Plan, keeps: (Plan, Conn) -> bool)
    requires |states| == |events| + 1
  {
    k < |events| && keeps(plan, states[k].conn) ==> keeps(NextPlan(plan, states[k], events[k], states[k + 1]), states[k + 1].conn)
  }

  lemma {:induction false} PlansAlong(states: seq<Run>, events: seq<Event>, i: nat, keeps: (Plan, Conn) -> bool)
    requires |states| == |events| + 1 && i <= |events| && keeps(PlanAt(states, events, 0), states[0].conn)
    requires forall k: nat, plan :: PlansFrom(states, events, k, plan, keeps)
    ensures keeps(PlanAt(states, events, i), states[i].conn)
  {
    if i > 0 {
      PlansAlong(states, events, i - 1, keeps);
      assert PlansFrom(states, events, i - 1, PlanAt(states, events, i - 1), keeps);
    }
  }

  lemma PlanKept(hash: Hasher, states: seq<Run>, events: seq<Event>, i: nat)
    requires IsRun(hash, states, events) && i <= |events|
    ensures Keeps(PlanAt(states, events, i), states[i].conn)
  {
    forall k: nat, plan
      ensures PlansFrom(states, events, k, plan, Keeps)
    {
      if k < |events| && Keeps(plan, states[k].conn) {
        RunStep(hash, states, events, k);
        StepKeepsPlan(hash, plan, states[k], events[k], states[k + 1]);
      }
    }
    PlansAlong(states, events, i, Keeps);
  }

  /** In every run a build sends a keyframe exactly if something calls for one, or the tick has come by which one is due: the
      interval after the last keyframe, less the stagger offset if that one was called for. */
  lemma KeyframeIff(hash: Hasher, states: seq<Run>, events: seq<Event>, i: nat)
    requires IsRun(hash, states, events) && i < |events| && events[i].Tick?
    ensures var p, input := PlanAt(states, events, i), events[i].input;
            SendsKeyframe(events[i]) <==> Called(p, states[i].conn, input) || input.tick >= p.last.value.due
  {
    PlanKept(hash, states, events, i);
    RunStep(hash, states, events, i);
    StepKeepsPlan(hash, PlanAt(states, events, i), states[i], events[i], states[i + 1]);
  }

  /** A connection that no keyframe is scheduled for has one asked for, so the stagger of first keyframes, which the builder knows
      of for such connections, decides nothing in any run. */
  lemma UnscheduledIsAsked(hash: Hasher, states: seq<Run>, events: seq<Event>, i: nat)
    requires IsRun(hash, states, events) && i <= |events| && states[i].conn.schedule.nextKeyframe == 0
    ensures states[i].conn.schedule.needsKeyframe
  {
    PlanKept(hash, states, events, i);
  }

  // ---- From one keyframe to the next ----

  predicate NoneBetween(events: seq<Event>, j: nat, q: nat)
    requires q <= |events|
  {
    forall i | j < i < q :: !SendsKeyframe(events[i])
  }

  /** One build per tick, the interval and the stagger offset being the same throughout. */
  predicate Paced(events: seq<Event>, interval: nat, phase: nat) {
    && phase < interval
    && (forall i | 0 <= i < |events| && events[i].Tick? :: events[i].input.cfg.keyframeInterval == interval && events[i].input.phase == phase)
    && (forall i, j | 0 <= i < j < |events| && events[i].Tick? && events[j].Tick? :: events[i].input.tick < events[j].input.tick)
    && (forall i, j | 0 <= i < j < |events| && events[i].Tick? && events[j].Tick? && events[i].input.tick + 1 < events[j].input.tick ::
          exists m :: i < m < j && events[m].Tick? && events[m].input.tick + 1 == events[j].input.tick)
  }

  /** The plan still has the last keyframe. */
  lemma {:induction false} LastStays(states: seq<Run>, events: seq<Event>, j: nat, q: nat)
    requires |states| == |events| + 1 && j < q <= |events| && SendsKeyframe(events[j]) && NoneBetween(events, j, q)
    requires events[j].input.phase < events[j].input.cfg.keyframeInterval
    ensures PlanAt(states, events, q).last ==
            Some(Last(events[j].input.policyVersion, Due(PlanAt(states, events, j), states[j].conn, events[j].input)))
  {
    if q > j + 1 {
      LastStays(states, events, j, q - 1);
    }
  }

  /** After the keyframe at event `j`: the next one comes when something calls for it, and else exactly when it is due. In a
      run with one build per tick, a keyframe that nothing calls for comes the interval after the last one, or the interval less
      the stagger offset if that one was called for; so those that nothing calls for are the interval apart. */
  lemma NextKeyframe(hash: Hasher, states: seq<Run>, events: seq<Event>, j: nat, q: nat, interval: nat, phase: nat)
    requires IsRun(hash, states, events) && j < q < |events| && SendsKeyframe(events[j]) && NoneBetween(events, j, q)
    requires Paced(events, interval, phase) && SendsKeyframe(events[q])
    requires !Called(PlanAt(states, events, q), states[q].conn, events[q].input)
    ensures events[q].input.tick == events[j].input.tick + interval -
            if Called(PlanAt(states, events, j), states[j].conn, events[j].input) then phase else 0
  {
    KeyframeIff(hash, states, events, q);
    LastStays(states, events, j, q);
    var due := Due(PlanAt(states, events, j), states[j].conn, events[j].input);
    assert events[q].input.tick >= due;
    if events[q].input.tick > due {
      var m :| j < m < q && events[m].Tick? && events[m].input.tick + 1 == events[q].input.tick;
      LastStays(states, events, j, m);
      KeyframeIff(hash, states, events, m);
      assert false;
    }
  }

  /** A keyframe comes at the latest when it is due: by any build at or after that tick one was sent. */
  lemma KeyframeInTime(hash: Hasher, states: seq<Run>, events: seq<Event>, j: nat, q: nat, interval: nat, phase: nat)
    requires IsRun(hash, states, events) && j < q < |events| && SendsKeyframe(events[j]) && events[q].Tick?
    requires Paced(events, interval, phase)
    requires events[q].input.tick >= events[j].input.tick + interval -
             if Called(PlanAt(states, events, j), states[j].conn, events[j].input) then phase else 0
    ensures exists i :: j < i <= q && SendsKeyframe(events[i])
  {
    if NoneBetween(events, j, q) {
      LastStays(states, events, j, q);
      KeyframeIff(hash, states, events, q);
      assert SendsKeyframe(events[q]);
    }
  }

  /** A build under another policy than the last keyframe's sends one. */
  lemma PolicyChangeSends(hash: Hasher, states: seq<Run>, events: seq<Event>, j: nat, q: nat)
    requires IsRun(hash, states, events) && j < q < |events| && SendsKeyframe(events[j]) && events[q].Tick?
    requires events[q].input.policyVersion != events[j].input.policyVersion
    ensures exists i :: j < i <= q && SendsKeyframe(events[i])
  {
    if NoneBetween(events, j, q) {
      RunStep(hash, states, events, j);
      assert TickStep(hash, states[j], events[j].input, events[j].trace, events[j].frame, states[j + 1]);
      LastStays(states, events, j, q);
      KeyframeIff(hash, states, events, q);
      assert SendsKeyframe(events[q]);
    }
  }

  /** A keyframe asked for, by a reconnection or a request, comes with the next build. */
  lemma AskedIsSent(hash: Hasher, states: seq<Run>, events: seq<Event>, j: nat, q: nat)
    requires IsRun(hash, states, events) && j < q < |events| && (events[j].Reconnect? || events[j].AskKeyframe?) && events[q].Tick?
    requires forall i | j < i < q :: !events[i].Tick?
    ensures SendsKeyframe(events[q])
  {
    StillAsked(states, events, j, q);
    KeyframeIff(hash, states, events, q);
  }

  lemma {:induction false} StillAsked(states: seq<Run>, events: seq<Event>, j: nat, q: nat)
    requires |states| == |events| + 1 && j < q <= |events| && (events[j].Reconnect? || events[j].AskKeyframe?)
    requires forall i | j < i < q :: !events[i].Tick?
    ensures PlanAt(states, events, q).asked
  {
    if q > j + 1 {
      StillAsked(states, events, j, q - 1);
    }
  }
}
