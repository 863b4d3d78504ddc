/** A run in which the candidate scan misses a WID: its update is acknowledged only after the value went back. */
module StreamExamples {
  import opened Options
  import opened StreamTypes
  import opened Connection
  import opened Acknowledge
  import opened FrameScan
  import opened DeltaBuild
  import opened FrameSpec
  import opened Replica
  import opened StreamRun

  const LENGTH: Hasher := (e: ProjectedEntity) => |e.canonical|
  const LOW := ProjectedEntity([], OnChange, 0)
  const HIGH := ProjectedEntity([0], OnChange, 0)
  const CFG := Config(1, 1, 1000, 8, 1000, 10, 10)
  const TABLE := FidTable(map[1 := 1], map[1 := 1], 2)
  const ENTER := SentOp(Enter, 1, 1, 0)
  const REENTER := SentOp(Enter, 1, 1, 1)
  const KEYFRAME := Keyframe(1, 0, [EntityFrame(1, 1, LOW)])
  const REFRESH := Keyframe(2, 0, [EntityFrame(1, 1, HIGH)])

  function Global(e: ProjectedEntity): map<WorldId, EntityState> {
    map[1 := EntityState(e, |e.canonical|)]
  }

  function Input(k: nat, cached: bool, changed: seq<WorldId>, e: ProjectedEntity): BuildInput {
    BuildInput(CFG, [1], cached, changed, Global(e), k, k, 0, 0)
  }

  function One(snapshotId: nat, op: SentOp): SendQueue {
    SendQueue([MakeRecord(snapshotId, [op])], 32, map[op.wid := 1])
  }

  /** The connection after the first keyframe, its acknowledgement, the second keyframe, and its acknowledgement. */
  const C1 := Conn(1, 1, 0, TABLE, map[1 := Tracked(1, 0, OnChange, 1)], map[], 0, Schedule(0, false, 1, 1001), One(1, ENTER), [])
  const C2 := C1.(acked := map[1 := Tracked(1, 0, OnChange, 0)], dirty := [1], baseline := 1, queue := NO_RECORDS)
  const ASKING := C2.(schedule := Schedule(0, true, 1, 1001))
  const C3 := C2.(sequence := 2, current := map[1 := Tracked(1, 1, OnChange, 2)], schedule := Schedule(0, false, 2, 1002),
                  dirty := [], queue := One(2, REENTER))
  const C5 := C3.(acked := map[1 := Tracked(1, 1, OnChange, 0)], dirty := [1], baseline := 2, queue := NO_RECORDS)

  const S1 := Run(C1, {}, 1, {1}, Global(LOW), [KEYFRAME], {0, 1}, true)
  const S2 := S1.(conn := ASKING)
  const S3 := Run(C3, {}, 2, {1}, Global(HIGH), [KEYFRAME, REFRESH], {0, 1, 2}, true)
  const S4 := S3.(latest := 3, global := Global(LOW))
  const S5 := S4.(conn := C5, coherent := false)
  const S6 := S5.(latest := 4)

  /** `R` relates whatever a step relates; the steps below are shown through it, one at a time. */
  ghost predicate Allows(R: (Run, Event, Run) -> bool) {
    forall s, e, t :: Step(LENGTH, s, e, t) ==> R(s, e, t)
  }

  lemma SingleWid(w: WorldId)
    ensures CountsOf(multiset{w}) == map[w := 1] && CountsOf(multiset{}) == map[]
  {
  }

  lemma Singles(k: nat, op: SentOp)
    ensures OpMap([op]) == map[op.wid := op] && Wids([op]) == multiset{op.wid}
    ensures Lists([op], map[op.wid := op])
    ensures One(k, op).Balanced() && RecordOps(One(k, op).records) == map[op.wid := op]
    ensures EvictCount([MakeRecord(k, [op])], 8, 1000) == 0
    ensures CoveredCount([MakeRecord(k, [op])], k) == 1
    ensures [] + [MakeRecord(k, [op])] == [MakeRecord(k, [op])]
    ensures NO_RECORDS.Balanced()
  {
    SingleOp(op);
    SingleWid(op.wid);
    var r := MakeRecord(k, [op]);
    assert [r][..0] == [] && [r][1..] == [];
    assert r.ops == [op];
    assert RecordWids([r]) == RecordWids([r][..0]) + Wids([op]);
    assert RecordWids([r]) == multiset{op.wid};
    assert TotalBytes([r]) == 32;
  }

  lemma FirstFids(need: set<WorldId>)
    ensures MapFids(NO_FIDS, [1], need) == if 1 in need then TABLE else NO_FIDS
    ensures MapFids(TABLE, [1], need) == TABLE && MapFids(TABLE, [], need) == TABLE
  {
    assert [1][..0] == [];
  }

  /** The first tick, with room for at least one FID. */
  function Opening(maxFids: nat): Event {
    Tick(Input(1, false, [1], LOW).(cfg := CFG.(maxFids := maxFids)), BuildTrace([], {}, [ENTER]), Some(KEYFRAME))
  }

  lemma FirstTick(R: (Run, Event, Run) -> bool, maxFids: nat)
    requires Allows(R) && maxFids >= 1
    ensures R(Start(0), Opening(maxFids), S1)
  {
    var input := Input(1, false, [1], LOW).(cfg := CFG.(maxFids := maxFids));
    Singles(1, ENTER);
    FirstFids(Shown(input));
    assert [1][..0] == [];
    assert CountUnmapped(map[], [1]) == 1;
    assert !Exhausted(FRESH, input);
    var p := KeyframePrepared(FRESH, input, true);
    assert Shown(input) == {1};
    assert KeyframeView(input, TABLE.fids) == C1.current;
    assert KeyframeOps(FRESH, input, TABLE.fids) == map[1 := ENTER];
    assert OfKind(map[1 := ENTER], Enter) == map[1 := ENTER];
    assert FrameOps(LENGTH, KEYFRAME) == [ENTER];
    assert Committed(p, input, [ENTER], C1);
    assert KeyframeSent(LENGTH, FRESH, input, true, [ENTER], C1, KEYFRAME);
    assert Covered(FRESH, input);
    assert Step(LENGTH, Start(0), Opening(maxFids), S1);
  }

  lemma FirstAck(R: (Run, Event, Run) -> bool)
    requires Allows(R)
    ensures R(S1, Ack(1), S1.(conn := C2))
  {
    Singles(1, ENTER);
    var records := C1.queue.records;
    assert records[..1] == records && records[1..] == [];
    assert [ENTER][..0] == [] && records[..0] == [];
    assert AckRecords(C1.acked, records) == C2.acked;
    assert OpWids([ENTER]) == [1];
    assert ReplayedWids(records) == [] + [1];
    assert records[0].snapshotId == 1;
    assert Outcome(C1, 1) == Accepted;
    assert Step(LENGTH, S1, Ack(1), S1.(conn := C2));
  }

  lemma SecondView()
    ensures var input := Input(2, true, [1], HIGH);
            && !Exhausted(ASKING, input)
            && KeyframePrepared(ASKING, input, true) == C3.(sequence := 1, queue := NO_RECORDS)
            && KeyframeOps(ASKING, input, TABLE.fids) == map[1 := REENTER]
            && OfKind(map[1 := REENTER], Enter) == map[1 := REENTER]
            && MapFids(TABLE, [1], Shown(input)) == TABLE
  {
    var input := Input(2, true, [1], HIGH);
    FirstFids(Shown(input));
    assert Shown(input) == {1} && Elements([1]) == {1};
    assert KeyframeView(input, TABLE.fids) == C3.current;
    assert KeyframeOps(ASKING, input, TABLE.fids) == map[1 := REENTER];
    assert OfKind(map[1 := REENTER], Enter) == map[1 := REENTER];
  }

  lemma SecondSent()
    ensures KeyframeSent(LENGTH, ASKING, Input(2, true, [1], HIGH), true, [REENTER], C3, REFRESH)
  {
    var input := Input(2, true, [1], HIGH);
    Singles(2, REENTER);
    SecondView();
    assert FrameOps(LENGTH, REFRESH) == [REENTER];
    assert Committed(KeyframePrepared(ASKING, input, true), input, [REENTER], C3);
  }

  lemma SecondTick(R: (Run, Event, Run) -> bool)
    requires Allows(R)
    ensures R(S2, Tick(Input(2, true, [1], HIGH), BuildTrace([], {}, [REENTER]), Some(REFRESH)), S3)
  {
    SecondSent();
    SecondView();
    assert Elements([1]) == {1};
    assert Covered(ASKING, Input(2, true, [1], HIGH));
    assert [KEYFRAME] + [REFRESH] == [KEYFRAME, REFRESH];
    assert Step(LENGTH, S2, Tick(Input(2, true, [1], HIGH), BuildTrace([], {}, [REENTER]), Some(REFRESH)), S3);
  }

  lemma ReturnTick(R: (Run, Event, Run) -> bool)
    requires Allows(R)
    ensures R(S3, Tick(Input(3, true, [1], LOW), BuildTrace([1], {}, []), None), S4)
  {
    var input := Input(3, true, [1], LOW);
    var scan := ScanOf(C3, input);
    FirstFids(scan.Entering({1}));
    assert Elements([1]) == {1};
    assert scan.Decide(1) == Skip;
    var found := Found(C3, input, {}, [1]);
    assert found.ops == map[];
    assert Step(LENGTH, S3, Tick(Input(3, true, [1], LOW), BuildTrace([1], {}, []), None), S4);
  }

  lemma LateAck(R: (Run, Event, Run) -> bool)
    requires Allows(R)
    ensures R(S4, Ack(2), S5)
  {
    Singles(2, REENTER);
    var records := C3.queue.records;
    assert records[..1] == records && records[1..] == [];
    assert [REENTER][..0] == [] && records[..0] == [];
    assert AckRecords(C3.acked, records) == C5.acked;
    assert OpWids([REENTER]) == [1];
    assert ReplayedWids(records) == [] + [1];
    assert records[0].snapshotId == 2;
    assert Outcome(C3, 2) == Accepted;
    assert !AgreesWith(C5.acked, Global(LOW), {1}, 1);
    assert Step(LENGTH, S4, Ack(2), S5);
  }

  lemma QuietFound()
    ensures Found(C5, Input(4, true, [], LOW), {}, []).ops == map[]
    ensures Found(C5, Input(4, true, [], LOW), {}, []).throttled == {}
    ensures 1 in FullScan(ScanOf(C5, Input(4, true, [], LOW)), TABLE, [1]).ops
  {
    var scan := ScanOf(C5, Input(4, true, [], LOW));
    assert scan.Decide(1) == DoUpdate;
    assert Elements([]) == {};
  }

  lemma QuietTick(R: (Run, Event, Run) -> bool)
    requires Allows(R)
    ensures R(S5, Tick(Input(4, true, [], LOW), BuildTrace([], {}, []), None), S6)
  {
    QuietFound();
    assert Elements([1]) == {1} && Elements([]) == {};
    assert Step(LENGTH, S5, Tick(Input(4, true, [], LOW), BuildTrace([], {}, []), None), S6);
  }

  const EVENTS := [
    Opening(10), Ack(1), AskKeyframe,
    Tick(Input(2, true, [1], HIGH), BuildTrace([], {}, [REENTER]), Some(REFRESH)),
    Tick(Input(3, true, [1], LOW), BuildTrace([1], {}, []), None), Ack(2),
    Tick(LAST_INPUT, BuildTrace([], {}, []), None)]
  const STATES := [Start(0), S1, S1.(conn := C2), S2, S3, S4, S5, S6]

  lemma SevenSteps(R: (Run, Event, Run) -> bool)
    requires Allows(R)
    ensures forall i | 0 <= i < 7 :: R(STATES[i], EVENTS[i], STATES[i + 1])
  {
    FirstTick(R, 10);
    FirstAck(R);
    Asking(R);
    SecondTick(R);
    ReturnTick(R);
    LateAck(R);
    QuietTick(R);
  }

  const LAST_INPUT := Input(4, true, [], LOW)

  /** Without lockstep the refinement is false: a run without eviction, uncovered keyframe or cut update, in
      which every frame is acknowledged and acknowledged in order, ends in a cached scan that finds nothing
      where the full scan finds an update, so the client keeps a value the world no longer has. */
  lemma CachedScanMayMissAnUpdate()
    ensures IsRun(LENGTH, STATES, EVENTS) && EVENTS[6].input == LAST_INPUT && LAST_INPUT.fromCache && EVENTS[6].frame == None
    ensures STATES[6].conn == C5 && Found(C5, LAST_INPUT, {}, []).ops == map[]
    ensures 1 in FullScan(ScanOf(C5, LAST_INPUT), TABLE, [1]).ops
    ensures AfterFrames(LENGTH, STATES[7].frames) == map[1 := Entry(1, 1)] && STATES[7].global == Global(LOW)
  {
    SevenSteps(Steps(LENGTH));
    QuietFound();
    Client();
  }

  lemma Asking(R: (Run, Event, Run) -> bool)
    requires Allows(R)
    ensures R(S1.(conn := C2), AskKeyframe, S2)
  {
    assert Step(LENGTH, S1.(conn := C2), AskKeyframe, S2);
  }

  lemma Client()
    ensures AfterFrames(LENGTH, [KEYFRAME, REFRESH]) == map[1 := Entry(1, 1)]
  {
    Singles(2, REENTER);
    assert [KEYFRAME, REFRESH][..1] == [KEYFRAME];
    assert FrameOps(LENGTH, REFRESH) == [REENTER];
  }
}
