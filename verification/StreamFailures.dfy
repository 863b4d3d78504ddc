/** Two short runs: one after which the current view is not what the client shows, and one that ends in a keyframe
    no acknowledgement can answer. In both, one entity takes the place of another before the first frame was
    acknowledged. */
module StreamFailures {
  import opened Options
  import opened StreamTypes
  import opened Connection
  import opened Acknowledge
  import opened FrameScan
  import opened DeltaBuild
  import opened FrameSpec
  import opened Replica
  import opened StreamRun
  import opened StreamViews
  import opened StreamExamples

  const OTHER: map<WorldId, EntityState> := map[2 := EntityState(LOW, 0)]

  function Swapped(maxFids: nat): BuildInput {
    BuildInput(CFG.(maxFids := maxFids), [2], false, [2], OTHER, 2, 2, 0, 0)
  }

  // ---- The client keeps what the view has lost ----

  const ENTER_OTHER := SentOp(Enter, 2, 2, 0)
  const TABLE_BOTH := FidTable(map[1 := 1, 2 := 2], map[1 := 1, 2 := 2], 3)
  const DELTA_FRAME := Delta(2, 0, [EntityFrame(2, 2, LOW)], [], [])
  const BOTH_RECORDS := [MakeRecord(1, [ENTER]), MakeRecord(2, [ENTER_OTHER])]
  const C_LOST := Conn(1, 2, 0, TABLE_BOTH, map[2 := Tracked(2, 0, OnChange, 2)], map[], 0, Schedule(0, false, 1, 1001),
                       SendQueue(BOTH_RECORDS, 64, map[1 := 1, 2 := 1]), [])
  const S_LOST := Run(C_LOST, {}, 2, {2}, OTHER, [KEYFRAME, DELTA_FRAME], {0, 1, 2}, true)
  const SWAP_TRACE := BuildTrace([], {}, [ENTER_OTHER])

  lemma BothQueued()
    ensures C_LOST.queue.Balanced() && EvictCount(BOTH_RECORDS, 8, 1000) == 0
    ensures C1.queue.records + [MakeRecord(2, [ENTER_OTHER])] == BOTH_RECORDS
    ensures RecordOps(C1.queue.records) == map[1 := ENTER]
  {
    Singles(1, ENTER);
    Singles(2, ENTER_OTHER);
    assert BOTH_RECORDS[..1] == [MakeRecord(1, [ENTER])];
    assert RecordWids(BOTH_RECORDS) == multiset{1, 2};
    assert CountsOf(multiset{1, 2}) == map[1 := 1, 2 := 1];
    assert BOTH_RECORDS[1..] == [MakeRecord(2, [ENTER_OTHER])] && BOTH_RECORDS[1..][1..] == [];
    assert TotalBytes(BOTH_RECORDS) == 64;
  }

  lemma SwapFound()
    ensures var found := Found(C1, Swapped(10), {}, []);
            && found.ops == map[2 := ENTER_OTHER] && found.landing == map[2 := Tracked(2, 0, OnChange, 2)]
            && found.throttled == {} && found.table == TABLE_BOTH
  {
    var scan := ScanOf(C1, Swapped(10));
    assert [2][..0] == [] && Elements([2]) == {2};
    assert scan.Entering(scan.All()) == {2};
    assert MapFids(TABLE, [2], {2}) == TABLE_BOTH;
  }

  lemma SwapPrepared()
    ensures DeltaPrepared(C1, Found(C1, Swapped(10), {}, []), {}) == C_LOST.(sequence := 1, queue := C1.queue)
  {
    SwapFound();
    var found := Found(C1, Swapped(10), {}, []);
    assert OfKind(found.ops, Leave) == map[];
    assert Stale(C1) == {1};
    assert found.landing + FallBack(C1.acked, {}) == found.landing;
    assert Converged(C1.current, C1.acked, {1}, found.landing, {}) == C_LOST.current;
  }

  lemma SwapSent()
    ensures DeltaSent(LENGTH, C1, Swapped(10), Found(C1, Swapped(10), {}, []), {}, [ENTER_OTHER], C_LOST, DELTA_FRAME)
  {
    SwapFound();
    SwapPrepared();
    BothQueued();
    Singles(2, ENTER_OTHER);
    var found := Found(C1, Swapped(10), {}, []);
    assert OfKind(found.ops, Update) == map[];
    assert found.ops - {} == map[2 := ENTER_OTHER];
    assert FrameOps(LENGTH, DELTA_FRAME) == [ENTER_OTHER];
    assert Committed(DeltaPrepared(C1, found, {}), Swapped(10), [ENTER_OTHER], C_LOST);
  }

  lemma SwapQuiet()
    ensures !BuildsKeyframe(C1, Swapped(10)) && !Exhausted(C1, Swapped(10))
  {
    assert [2][..0] == [];
    assert CountUnmapped(TABLE.fids, [2]) == 1;
  }

  lemma SwapDelta()
    ensures DeltaBuilt(LENGTH, C1, {}, Swapped(10), SWAP_TRACE, C_LOST, {}, Some(DELTA_FRAME))
  {
    SwapFound();
    SwapSent();
  }

  lemma SwapBuilds()
    ensures Builds(LENGTH)(C1, {}, Swapped(10), SWAP_TRACE, C_LOST, {}, Some(DELTA_FRAME))
  {
    SwapQuiet();
    SwapDelta();
  }

  lemma SwapTrusted()
    ensures NextTrusted(C1, Swapped(10), C_LOST, {0, 1}, 2) == {0, 1, 2}
  {
    SwapQuiet();
    assert !Evicting(C1, C_LOST);
  }

  lemma SwapOk(maxFids: nat)
    ensures Swapped(maxFids).Ok(LENGTH) && Elements(Swapped(maxFids).visible) == {2} == Swapped(maxFids).global.Keys
  {
  }

  /** A tick that sends a delta, from its parts. */
  lemma DeltaTick(hash: Hasher, s: Run, input: BuildInput, trace: BuildTrace, frame: StateFrame, t: Run)
    requires input.Ok(hash) && Elements(input.visible) <= input.global.Keys && input.snapshotId == s.latest + 1
    requires !input.fromCache && trace.trimmed == {} && !BuildsKeyframe(s.conn, input) && !Exhausted(s.conn, input)
    requires Builds(hash)(s.conn, s.throttled, input, trace, t.conn, t.throttled, Some(frame))
    requires t.latest == input.snapshotId && t.visible == Elements(input.visible) && t.global == input.global && t.coherent
    requires t.frames == s.frames + [frame] && t.trusted == NextTrusted(s.conn, input, t.conn, s.trusted, |t.frames|)
    ensures TickStep(hash, s, input, trace, Some(frame), t)
  {
    assert Opened(s.conn, input) == s.conn;
  }

  lemma SwapStep()
    ensures TickStep(LENGTH, S1, Swapped(10), SWAP_TRACE, Some(DELTA_FRAME), S_LOST)
  {
    SwapQuiet();
    SwapBuilds();
    SwapTrusted();
    SwapOk(10);
    SwapFields();
    DeltaTick(LENGTH, S1, Swapped(10), SWAP_TRACE, DELTA_FRAME, S_LOST);
  }

  lemma SwapFields()
    ensures S_LOST.frames == S1.frames + [DELTA_FRAME] && |S_LOST.frames| == 2
    ensures S_LOST.latest == 2 == S1.latest + 1 && S_LOST.visible == {2} && S_LOST.global == OTHER && S_LOST.coherent
    ensures S1.conn == C1 && S1.throttled == {} && S_LOST.conn == C_LOST && S_LOST.throttled == {}
    ensures S1.trusted == {0, 1} && S_LOST.trusted == {0, 1, 2}
  {
    assert [KEYFRAME] + [DELTA_FRAME] == [KEYFRAME, DELTA_FRAME];
  }

  lemma SwapTick(R: (Run, Event, Run) -> bool)
    requires Allows(R)
    ensures R(S1, Tick(Swapped(10), SWAP_TRACE, Some(DELTA_FRAME)), S_LOST)
  {
    SwapStep();
    assert Step(LENGTH, S1, Tick(Swapped(10), SWAP_TRACE, Some(DELTA_FRAME)), S_LOST);
  }

  const LOST_STATES := [Start(0), S1, S_LOST]
  const LOST_EVENTS := [Opening(10), Tick(Swapped(10), SWAP_TRACE, Some(DELTA_FRAME))]

  lemma LostSteps(R: (Run, Event, Run) -> bool)
    requires Allows(R)
    ensures forall i | 0 <= i < 2 :: R(LOST_STATES[i], LOST_EVENTS[i], LOST_STATES[i + 1])
  {
    FirstTick(R, 10);
    SwapTick(R);
  }

  /** The entity went out of sight while its entering was still in flight: there is nothing acknowledged to take
      back, so the frame passes it over, the current view loses it, and the client keeps it. */
  lemma PromiseMayFail()
    ensures IsRun(LENGTH, LOST_STATES, LOST_EVENTS)
    ensures S_LOST.trusted == {0, 1, 2} && !PromiseKept(LENGTH, S_LOST)
  {
    LostSteps(Steps(LENGTH));
    assert C_LOST.current.Keys == {2};
    LostFrames();
  }

  lemma LostFrames()
    ensures 1 in AfterFrames(LENGTH, [KEYFRAME, DELTA_FRAME])
  {
    Singles(1, ENTER);
    Singles(2, ENTER_OTHER);
    assert [KEYFRAME, DELTA_FRAME][..1] == [KEYFRAME] && [KEYFRAME][..0] == [];
    assert FrameOps(LENGTH, KEYFRAME) == [ENTER] && FrameOps(LENGTH, DELTA_FRAME) == [ENTER_OTHER];
    assert 1 in AfterFrames(LENGTH, [KEYFRAME]);
  }

  // ---- The exhaustion keyframe ----

  const ENTER_ANEW := SentOp(Enter, 2, 1, 0)
  const TABLE_ANEW := FidTable(map[2 := 1], map[1 := 2], 2)
  const KEYFRAME_ANEW := Keyframe(2, 0, [EntityFrame(2, 1, LOW)])
  const C_ANEW := Conn(2, 1, 2, TABLE_ANEW, map[2 := Tracked(1, 0, OnChange, 2)], map[], 0, Schedule(0, false, 2, 1002),
                       One(2, ENTER_ANEW), [])
  const S_ANEW := Run(C_ANEW, {}, 2, {2}, OTHER, [KEYFRAME_ANEW], {0, 1}, true)
  const ANEW_TRACE := BuildTrace([], {}, [ENTER_ANEW])

  lemma AnewPrepared()
    ensures var input, c := Swapped(1), ResetEpoch(C1, 2);
            && Exhausted(C1, input)
            && KeyframePrepared(c, input, true) == C_ANEW.(sequence := 0, queue := NO_RECORDS)
            && KeyframeOps(c, input, TABLE_ANEW.fids) == map[2 := ENTER_ANEW]
            && OfKind(map[2 := ENTER_ANEW], Enter) == map[2 := ENTER_ANEW]
            && MapFids(NO_FIDS, [2], Shown(input)) == TABLE_ANEW
  {
    var input, c := Swapped(1), ResetEpoch(C1, 2);
    assert [2][..0] == [] && Elements([2]) == {2};
    assert CountUnmapped(TABLE.fids, [2]) == 1;
    assert Shown(input) == {2};
    assert MapFids(NO_FIDS, [2], {2}) == TABLE_ANEW;
    assert KeyframeView(input, TABLE_ANEW.fids) == C_ANEW.current;
    assert KeyframeOps(c, input, TABLE_ANEW.fids) == map[2 := ENTER_ANEW];
    assert OfKind(map[2 := ENTER_ANEW], Enter) == map[2 := ENTER_ANEW];
  }

  lemma AnewSent()
    ensures KeyframeSent(LENGTH, ResetEpoch(C1, 2), Swapped(1), true, [ENTER_ANEW], C_ANEW, KEYFRAME_ANEW)
  {
    AnewPrepared();
    Singles(2, ENTER_ANEW);
    assert FrameOps(LENGTH, KEYFRAME_ANEW) == [ENTER_ANEW];
    assert Committed(KeyframePrepared(ResetEpoch(C1, 2), Swapped(1), true), Swapped(1), [ENTER_ANEW], C_ANEW);
  }

  lemma AnewTick(R: (Run, Event, Run) -> bool)
    requires Allows(R)
    ensures R(S1, Tick(Swapped(1), ANEW_TRACE, Some(KEYFRAME_ANEW)), S_ANEW)
  {
    AnewPrepared();
    AnewSent();
    assert Elements([2]) == {2};
    assert Covered(ResetEpoch(C1, 2), Swapped(1));
    assert [] + [KEYFRAME_ANEW] == [KEYFRAME_ANEW];
    assert Step(LENGTH, S1, Tick(Swapped(1), ANEW_TRACE, Some(KEYFRAME_ANEW)), S_ANEW);
  }

  const ANEW_STATES := [Start(0), S1, S_ANEW]
  const ANEW_EVENTS := [Opening(1), Tick(Swapped(1), ANEW_TRACE, Some(KEYFRAME_ANEW))]

  lemma AnewSteps(R: (Run, Event, Run) -> bool)
    requires Allows(R)
    ensures forall i | 0 <= i < 2 :: R(ANEW_STATES[i], ANEW_EVENTS[i], ANEW_STATES[i + 1])
  {
    FirstTick(R, 1);
    AnewTick(R);
  }

  /** With one FID per epoch the second entity opens an epoch; the client's acknowledgement of the keyframe it then
      gets is refused as another epoch's. */
  lemma ExhaustionKeyframeIsRefused()
    ensures IsRun(LENGTH, ANEW_STATES, ANEW_EVENTS)
    ensures Exhausted(S1.conn, Swapped(1)) && Outcome(S_ANEW.conn, KEYFRAME_ANEW.snapshotId) == EpochMismatch
  {
    AnewSteps(Steps(LENGTH));
    AnewPrepared();
  }
}
