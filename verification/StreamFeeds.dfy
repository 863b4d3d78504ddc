/** What the projection shows turn by turn is all that the stream's runs take for granted of a build's input. */
module StreamFeeds {
  import opened Options
  import opened StreamTypes
  import opened Connection
  import opened FrameScan
  import opened FrameSpec
  import opened WorldModel
  import opened CellIndex
  import opened GlobalView
  import opened ObservedRuns
  import opened SightRuns
  import opened TurnRuns
  import opened StreamRun

  /** The engine's view as a build reads it. */
  function StatesOf(global: Global): map<WorldId, EntityState> {
    map w | w in global :: EntityState(global[w].projected, global[w].hash)
  }

  predicate BuiltFrom(input: BuildInput, now: Shown) {
    && input.visible == now.visible && input.fromCache == now.hit && input.changed == now.changed
    && input.global == StatesOf(now.global) && input.phase < input.cfg.keyframeInterval
  }

  /** What the connection's last build was given. */
  predicate LastSaw(s: Run, before: Shown) {
    s.visible == Elements(before.visible) && s.global == StatesOf(before.global)
  }

  function TickCount(events: seq<Event>): nat {
    if events == [] then 0 else TickCount(events[..|events| - 1]) + if events[|events| - 1].Tick? then 1 else 0
  }

  /** A step whose build, if it is a tick, is given what the `k`-th turn shows, whatever that is. */
  ghost predicate FedStep(hash: Hasher, shown: seq<Shown>, k: nat, s: Run, e: Event, t: Run) {
    match e
    case Tick(input, trace, frame) => k < |shown| && BuiltFrom(input, shown[k]) && BuildStep(hash, s, input, trace, frame, t)
    case _ => Step(hash, s, e, t)
  }

  ghost predicate IsFedRun(hash: Hasher, shown: seq<Shown>, states: seq<Run>, events: seq<Event>) {
    && |states| == |events| + 1
    && states[0] == Start(states[0].latest)
    && forall i | 0 <= i < |events| :: FedStep(hash, shown, TickCount(events[..i]), states[i], events[i], states[i + 1])
  }

  /** Views whose hashes are those of one hasher, and each differing from the one before as told. */
  ghost predicate Sound(hash: Hasher, shown: seq<Shown>) {
    && (forall k | 0 <= k < |shown| :: SoundAt(hash, shown[k]))
    && (forall k | 0 < k < |shown| :: SoundAfter(shown[k - 1], shown[k]))
    && (shown != [] ==> !shown[0].hit)
  }

  ghost predicate SoundAt(hash: Hasher, now: Shown) {
    && Ascending(now.visible) && Ascending(now.changed) && Elements(now.visible) <= now.global.Keys
    && forall w | w in now.global :: now.global[w].hash == hash(now.global[w].projected)
  }

  ghost predicate SoundAfter(before: Shown, now: Shown) {
    && Differ(before.global, now.global, now.changed, now.removed)
    && (now.hit ==> now.global.Keys == before.global.Keys)
  }

  /** Every cache hit finds visible what the last build had. */
  ghost predicate HitsHold(shown: seq<Shown>) {
    forall k | 0 < k < |shown| && shown[k].hit :: Elements(shown[k].visible) == Elements(shown[k - 1].visible)
  }

  /** A filter once in force is not taken away. */
  predicate FiltersStay(turns: seq<Turn>) {
    forall k | 0 < k < |turns| && turns[k - 1].filter.Some? :: turns[k].filter.Some?
  }

  lemma FiltersStayHitsHold(index: DynamicCellIndex, start: WorldValue, global: Global, turns: seq<Turn>, shown: seq<Shown>)
    requires AllShown(index, start, global, turns, shown) && FiltersStay(turns)
    ensures HitsHold(shown)
  {
    forall k | 0 < k < |shown| && shown[k].hit
      ensures Elements(shown[k].visible) == Elements(shown[k - 1].visible)
    {
      assert TurnShown(index, start, global, turns, shown, k);
    }
  }

  lemma ShownIsSound(hash: Hasher, index: DynamicCellIndex, start: WorldValue, global: Global, first: Policy, place: ProjectedEntity -> Place,
                     turns: seq<Turn>, shown: seq<Shown>)
    requires AllShown(index, start, global, turns, shown) && Lawful(place, first, turns) && first.hash == hash
    requires shown != [] ==> !shown[0].hit
    ensures Sound(hash, shown)
  {
    forall k | 0 <= k < |shown|
      ensures SoundAt(hash, shown[k])
    {
      SameHash(place, first, turns, k);
      assert TurnShown(index, start, global, turns, shown, k);
      assert SeesRight(index, start, turns, k)(shown[k]);
    }
    forall k | 0 < k < |shown|
      ensures SoundAfter(shown[k - 1], shown[k])
    {
      assert TurnShown(index, start, global, turns, shown, k);
    }
  }

  lemma {:induction false} SameHash(place: ProjectedEntity -> Place, first: Policy, turns: seq<Turn>, k: nat)
    requires Lawful(place, first, turns) && k < |turns|
    ensures turns[k].policy.hash == first.hash
  {
    assert Follows(place)(PolicyBefore(first, turns, k), turns[k].policy);
    if k > 0 {
      SameHash(place, first, turns, k - 1);
    }
  }

  /** A build is given what it takes for granted exactly if a hit finds visible what the last build had. */
  lemma TurnIsGivenIff(hash: Hasher, shown: seq<Shown>, k: nat, s: Run, input: BuildInput)
    requires Sound(hash, shown) && k < |shown| && BuiltFrom(input, shown[k]) && (k > 0 ==> LastSaw(s, shown[k - 1]))
    ensures Given(hash, s, input) <==> (k > 0 && shown[k].hit ==> Elements(shown[k].visible) == Elements(shown[k - 1].visible))
  {
    assert SoundAt(hash, shown[k]);
    if k > 0 {
      assert SoundAt(hash, shown[k - 1]) && SoundAfter(shown[k - 1], shown[k]);
    }
  }

  lemma StepSaw(hash: Hasher, shown: seq<Shown>, k: nat, s: Run, e: Event, t: Run)
    requires FedStep(hash, shown, k, s, e, t)
    ensures e.Tick? ==> LastSaw(t, shown[k])
    ensures !e.Tick? ==> t.visible == s.visible && t.global == s.global
  {
  }

  lemma TicksOneMore(events: seq<Event>, i: nat)
    requires i < |events|
    ensures TickCount(events[..i + 1]) == TickCount(events[..i]) + if events[i].Tick? then 1 else 0
  {
    assert events[..i + 1][..i] == events[..i];
  }

  lemma {:induction false} RunSaw(hash: Hasher, shown: seq<Shown>, states: seq<Run>, events: seq<Event>, i: nat)
    requires IsFedRun(hash, shown, states, events) && i <= |events|
    ensures var k := TickCount(events[..i]); k <= |shown| && (k > 0 ==> LastSaw(states[i], shown[k - 1]))
  {
    if i > 0 {
      RunSaw(hash, shown, states, events, i - 1);
      TicksOneMore(events, i - 1);
      StepSaw(hash, shown, TickCount(events[..i - 1]), states[i - 1], events[i - 1], states[i]);
    }
  }

  lemma {:induction false} TickAt(events: seq<Event>, k: nat) returns (i: nat)
    requires k < TickCount(events)
    ensures i < |events| && events[i].Tick? && TickCount(events[..i]) == k
  {
    var init := events[..|events| - 1];
    if k < TickCount(init) {
      i := TickAt(init, k);
      assert events[..i] == init[..i];
    } else {
      i := |events| - 1;
    }
  }

  lemma {:induction false} TicksBefore(events: seq<Event>, i: nat)
    requires i < |events| && events[i].Tick?
    ensures TickCount(events[..i]) < TickCount(events)
  {
    if i < |events| - 1 {
      TicksBefore(events[..|events| - 1], i);
      assert events[..|events| - 1][..i] == events[..i];
    }
  }

  lemma StepIffGiven(hash: Hasher, shown: seq<Shown>, k: nat, s: Run, e: Event, t: Run)
    requires FedStep(hash, shown, k, s, e, t) && e.Tick?
    ensures k < |shown| && BuiltFrom(e.input, shown[k]) && (Steps(hash)(s, e, t) <==> Given(hash, s, e.input))
  {
  }

  lemma StepIsGivenIff(hash: Hasher, shown: seq<Shown>, states: seq<Run>, events: seq<Event>, i: nat)
    requires Sound(hash, shown) && IsFedRun(hash, shown, states, events) && i < |events| && events[i].Tick?
    ensures var k := TickCount(events[..i]);
            && k < |shown|
            && (Steps(hash)(states[i], events[i], states[i + 1]) <==>
                (k > 0 && shown[k].hit ==> Elements(shown[k].visible) == Elements(shown[k - 1].visible)))
  {
    var k := TickCount(events[..i]);
    RunSaw(hash, shown, states, events, i);
    StepIffGiven(hash, shown, k, states[i], events[i], states[i + 1]);
    TurnIsGivenIff(hash, shown, k, states[i], events[i].input);
  }

  lemma SoundRunIff(hash: Hasher, shown: seq<Shown>, states: seq<Run>, events: seq<Event>)
    requires Sound(hash, shown) && IsFedRun(hash, shown, states, events) && TickCount(events) == |shown|
    ensures IsRun(hash, states, events) <==> HitsHold(shown)
  {
    if HitsHold(shown) {
      forall i | 0 <= i < |events|
        ensures Steps(hash)(states[i], events[i], states[i + 1])
      {
        assert FedStep(hash, shown, TickCount(events[..i]), states[i], events[i], states[i + 1]);
        if events[i].Tick? {
          StepIsGivenIff(hash, shown, states, events, i);
        }
      }
    }
    if IsRun(hash, states, events) {
      forall k | 0 < k < |shown| && shown[k].hit
        ensures Elements(shown[k].visible) == Elements(shown[k - 1].visible)
      {
        var i := TickAt(events, k);
        StepIsGivenIff(hash, shown, states, events, i);
      }
    }
  }

  /** Builds fed by the projection, one turn each, make a run, so that what runs of the stream take for granted holds,
      exactly if every cache hit finds visible what the last build had; which it does if no filter is taken away. */
  lemma FedRunIsRunIff(hash: Hasher, index: DynamicCellIndex, start: WorldValue, global: Global, first: Policy, place: ProjectedEntity -> Place,
                       turns: seq<Turn>, shown: seq<Shown>, states: seq<Run>, events: seq<Event>)
    requires AllShown(index, start, global, turns, shown) && Lawful(place, first, turns) && first.hash == hash
    requires (shown != [] ==> !shown[0].hit) && IsFedRun(hash, shown, states, events) && TickCount(events) == |shown|
    ensures IsRun(hash, states, events) <==> HitsHold(shown)
    ensures FiltersStay(turns) ==> IsRun(hash, states, events)
  {
    ShownIsSound(hash, index, start, global, first, place, turns, shown);
    SoundRunIff(hash, shown, states, events);
    if FiltersStay(turns) {
      FiltersStayHitsHold(index, start, global, turns, shown);
    }
  }

  /** After a filter was taken away: an entity that is visible again, and that neither the client has nor any candidate list
      names, is missed by the scan of the candidates. */
  lemma ReappearedIsMissed(scan: Scan, table: FidTable, visible: seq<WorldId>, candidates: seq<WorldId>, w: WorldId)
    requires Ascending(visible) && Elements(visible) == scan.visible && Ascending(candidates)
    requires w in scan.visible && w in scan.global && w !in scan.acked && w !in candidates
    ensures ScanOver(scan, table, candidates, Elements(candidates)) != FullScan(scan, table, visible)
  {
    assert !scan.Agrees(w);
    CachedScanRefinesFullScan(scan, table, visible, candidates);
  }
}
