/** What one frame build does to a connection: the three outcomes (keyframe, delta, nothing). */
module FrameSpec {
  import opened Options
  import opened StreamTypes
  import opened Connection
  import opened FrameScan
  import opened DeltaBuild
  import opened Replica
  import opened Sorting

  /** One tick as a connection's build sees it. `phase` is the connection's stagger offset. */
  datatype BuildInput = BuildInput(
    cfg: Config, visible: seq<WorldId>, fromCache: bool, changed: seq<WorldId>,
    global: map<WorldId, EntityState>, tick: nat, snapshotId: nat, policyVersion: nat, phase: nat)
  {
    ghost predicate Ok(hash: Hasher) {
      && Ascending(visible) && Ascending(changed)
      && HashesOk(hash, global)
      && phase < cfg.keyframeInterval
    }
  }

  function ScanOf(c: Conn, input: BuildInput): Scan {
    Scan(c.acked, c.current, input.global, Elements(input.visible), input.tick, input.cfg)
  }

  function CountUnmapped(fids: map<WorldId, FeatureId>, visible: seq<WorldId>): nat {
    if visible == [] then 0
    else CountUnmapped(fids, visible[..|visible| - 1]) + if visible[|visible| - 1] in fids then 0 else 1
  }

  /** The FID space is exhausted; visible WIDs are only counted when the visible set is new. */
  predicate Exhausted(c: Conn, input: BuildInput) {
    |c.table.fids| + (if input.fromCache then 0 else CountUnmapped(c.table.fids, input.visible)) > input.cfg.maxFids
  }

  predicate PeriodicDue(c: Conn, input: BuildInput) {
    if c.schedule.nextKeyframe != 0 then input.tick >= c.schedule.nextKeyframe
    else input.tick + input.phase >= c.schedule.lastKeyframe + input.cfg.keyframeInterval
  }

  predicate Forced(c: Conn, input: BuildInput) {
    c.schedule.needsKeyframe || c.schedule.policyVersion != input.policyVersion || Exhausted(c, input)
  }

  /** The connection the frame is built from: exhaustion opens a new epoch first. */
  function Opened(c: Conn, input: BuildInput): Conn {
    if Exhausted(c, input) then ResetEpoch(c, input.snapshotId) else c
  }

  /** The queue after recording a frame with these operations and enforcing the limits. */
  ghost predicate Recorded(c: Conn, input: BuildInput, ops: seq<SentOp>, queue: SendQueue) {
    var records := c.queue.records + [MakeRecord(input.snapshotId, ops)];
    && queue.Balanced()
    && queue.records == records[EvictCount(records, input.cfg.maxUnackedFrames, input.cfg.maxUnackedBytes)..]
  }

  predicate EvictsUnacked(c: Conn, input: BuildInput, ops: seq<SentOp>) {
    var records := c.queue.records + [MakeRecord(input.snapshotId, ops)];
    var n := EvictCount(records, input.cfg.maxUnackedFrames, input.cfg.maxUnackedBytes);
    AnyUnacked(records, n, c.baseline)
  }

  function Shown(input: BuildInput): set<WorldId> {
    set w | w in input.visible && w in input.global
  }

  function Entrance(input: BuildInput, fids: map<WorldId, FeatureId>, w: WorldId): Tracked {
    if w in input.global
    then Tracked(if w in fids then fids[w] else 0, input.global[w].hash, input.global[w].projected.frequency, input.tick)
    else Tracked(0, 0, OnChange, 0)
  }

  ghost function EnterOpsOf(input: BuildInput, fids: map<WorldId, FeatureId>, done: set<WorldId>): Ops {
    Tabulate(done * input.global.Keys,
             w => SentOp(Enter, w, Entrance(input, fids, w).fid, Entrance(input, fids, w).hash))
  }

  ghost function EnterViewOf(input: BuildInput, fids: map<WorldId, FeatureId>, done: set<WorldId>): map<WorldId, Tracked> {
    Tabulate(done * input.global.Keys, w => Entrance(input, fids, w))
  }

  ghost function LeaveOpsOf(acked: map<WorldId, Tracked>, visible: seq<WorldId>, done: set<WorldId>): Ops {
    Tabulate((set w | w in done && w in acked && w !in visible), w => SentOp(Leave, w, At(acked, w).fid, 0))
  }

  /** A keyframe enters all that is shown and lets go of what was acknowledged and is not visible. */
  ghost function KeyframeOps(c: Conn, input: BuildInput, fids: map<WorldId, FeatureId>): Ops {
    EnterOpsOf(input, fids, Elements(input.visible)) + LeaveOpsOf(c.acked, input.visible, c.acked.Keys)
  }

  ghost function KeyframeView(input: BuildInput, fids: map<WorldId, FeatureId>): map<WorldId, Tracked> {
    EnterViewOf(input, fids, Elements(input.visible))
  }

  /** `c` with the frame's operations committed. */
  ghost predicate Committed(c: Conn, input: BuildInput, ops: seq<SentOp>, c': Conn) {
    && Recorded(c, input, ops, c'.queue)
    && c' == c.(sequence := c.sequence + 1, queue := c'.queue,
                schedule := c.schedule.(needsKeyframe := c.schedule.needsKeyframe || EvictsUnacked(c, input, ops)))
  }

  /** The connection once the keyframe's contents are in place. */
  ghost function KeyframePrepared(c: Conn, input: BuildInput, forced: bool): Conn
    requires input.phase < input.cfg.keyframeInterval
  {
    var table := MapFids(c.table, input.visible, Shown(input));
    c.(table := table, current := KeyframeView(input, table.fids), dirty := [],
       schedule := Schedule(input.policyVersion, false, input.tick,
                            input.tick + input.cfg.keyframeInterval - if forced then input.phase else 0))
  }

  /** `c'` and `frame` are the outcome of building a keyframe from `c`. */
  ghost predicate KeyframeSent(hash: Hasher, c: Conn, input: BuildInput, forced: bool, ops: seq<SentOp>, c': Conn, frame: StateFrame)
    requires input.phase < input.cfg.keyframeInterval
  {
    var table := MapFids(c.table, input.visible, Shown(input));
    var sent := KeyframeOps(c, input, table.fids);
    && Lists(ops, sent)
    && frame.Keyframe? && frame.snapshotId == input.snapshotId && frame.baseline == 0
    && Lists(FrameOps(hash, frame), OfKind(sent, Enter)) && Sorted(ByEntityWid, frame.entities)
    && Committed(KeyframePrepared(c, input, forced), input, ops, c')
  }

  /** The current view brought to the acknowledged entries for stale WIDs, then to this frame's. */
  ghost function Converged(view: map<WorldId, Tracked>, acked: map<WorldId, Tracked>, stale: set<WorldId>,
                     landing: map<WorldId, Tracked>, leaving: set<WorldId>): map<WorldId, Tracked>
  {
    Tabulate((set w | w in view.Keys + acked.Keys + landing.Keys && w !in leaving
                     && (w in landing || if w in stale then w in acked else w in view)),
             w => if w in landing then landing[w] else At(if w in stale then acked else view, w))
  }

  /** What a rebuild from scratch would give: the acknowledged view overlaid by the frame. */
  function Rebuilt(acked: map<WorldId, Tracked>, landing: map<WorldId, Tracked>, leaving: set<WorldId>): map<WorldId, Tracked> {
    (acked + landing) - leaving
  }

  function At(m: map<WorldId, Tracked>, w: WorldId): Tracked {
    if w in m then m[w] else Tracked(0, 0, OnChange, 0)
  }

  /** Two tables give `w` the same entry, or both none. */
  predicate SameAt(a: map<WorldId, Tracked>, b: map<WorldId, Tracked>, w: WorldId) {
    if w in a then w in b && a[w] == b[w] else w !in b
  }

  /** Converging in place gives the rebuilt view exactly if the view and the acknowledged view agree
      wherever neither the frame nor the stale WIDs look. */
  lemma InPlaceIsRebuild(view: map<WorldId, Tracked>, acked: map<WorldId, Tracked>, stale: set<WorldId>,
                         landing: map<WorldId, Tracked>, leaving: set<WorldId>)
    ensures Converged(view, acked, stale, landing, leaving) == Rebuilt(acked, landing, leaving)
       <==> forall w | w !in stale && w !in landing && w !in leaving :: SameAt(view, acked, w)
  {
    var a, b := Converged(view, acked, stale, landing, leaving), Rebuilt(acked, landing, leaving);
    forall w | w !in stale && w !in landing && w !in leaving
      ensures SameAt(a, b, w) <==> SameAt(view, acked, w)
    {
    }
    if forall w | w !in stale && w !in landing && w !in leaving :: SameAt(view, acked, w) {
      forall w
        ensures SameAt(a, b, w)
      {
      }
    }
  }

  function Stale(c: Conn): set<WorldId> {
    Elements(c.dirty) + c.queue.counts.Keys
  }

  /** What the scan of this build finds. */
  ghost function Found(c: Conn, input: BuildInput, throttled: set<WorldId>, candidates: seq<WorldId>): ScanResult {
    if input.fromCache then ScanOver(ScanOf(c, input), c.table, candidates, Elements(candidates))
    else FullScan(ScanOf(c, input), c.table, input.visible)
  }

  ghost predicate CandidatesOk(c: Conn, input: BuildInput, throttled: set<WorldId>, candidates: seq<WorldId>) {
    && Ascending(candidates)
    && Elements(candidates) == Candidates(c.queue.counts, throttled, input.changed, Elements(input.visible))
  }

  /** The update that would be sent for `w`. */
  function UpdateOf(scan: Scan, w: WorldId): EntityFrame {
    EntityFrame(w, At(scan.acked, w).fid, if w in scan.global then scan.global[w].projected else ProjectedEntity([], OnChange, 0))
  }

  /** The cut updates: none within the quota, otherwise all but a quota of the most urgent. */
  ghost predicate TrimmedOk(scan: Scan, found: ScanResult, trimmed: set<WorldId>) {
    var updated := OfKind(found.ops, Update).Keys;
    && trimmed <= updated && updated <= scan.acked.Keys * scan.global.Keys
    && |updated - trimmed| <= scan.cfg.maxUpdates
    && (trimmed != {} ==> |updated - trimmed| == scan.cfg.maxUpdates)
    && (forall k, d | k in updated - trimmed && d in trimmed ::
          Urgent(UpdateOf(scan, k), UpdateOf(scan, d)))
  }

  /** The connection once the delta's contents are in place. */
  ghost function DeltaPrepared(c: Conn, found: ScanResult, trimmed: set<WorldId>): Conn {
    var landing, leaving := found.landing + FallBack(c.acked, trimmed), OfKind(found.ops, Leave).Keys;
    c.(table := found.table, current := Converged(c.current, c.acked, Stale(c), landing, leaving), dirty := [])
  }

  /** `c'` and `frame` are the outcome of building a delta from `c`. */
  ghost predicate DeltaSent(hash: Hasher, c: Conn, input: BuildInput, found: ScanResult, trimmed: set<WorldId>,
                            ops: seq<SentOp>, c': Conn, frame: StateFrame)
  {
    var scan := ScanOf(c, input);
    var sent := found.ops - trimmed;
    && TrimmedOk(scan, found, trimmed)
    && Lists(ops, sent)
    && frame.Delta? && frame.snapshotId == input.snapshotId && frame.baseline == c.baseline
    && Lists(FrameOps(hash, frame), sent)
    && Sorted(ByLeaveFid, frame.leaves) && Sorted(ByEntityWid, frame.enters) && Sorted(ByFid, frame.updates)
    && Committed(DeltaPrepared(c, found, trimmed), input, ops, c')
  }

  /** The acknowledged entries of the cut WIDs. */
  ghost function FallBack(acked: map<WorldId, Tracked>, trimmed: set<WorldId>): map<WorldId, Tracked> {
    Tabulate(trimmed * acked.Keys, w => At(acked, w))
  }

  /** The witnesses of one build that its result does not determine. */
  datatype BuildTrace = BuildTrace(candidates: seq<WorldId>, trimmed: set<WorldId>, ops: seq<SentOp>)

  /** The delta branch of a build. */
  ghost predicate DeltaBuilt(hash: Hasher, c: Conn, throttled: set<WorldId>, input: BuildInput, trace: BuildTrace,
                             c': Conn, throttled': set<WorldId>, frame: Option<StateFrame>)
  {
    var found := Found(c, input, throttled, trace.candidates);
    && (input.fromCache ==> CandidatesOk(c, input, throttled, trace.candidates))
    && throttled' == found.throttled
    && if found.ops == map[] then frame == None && c' == c
       else frame.Some? && DeltaSent(hash, c, input, found, trace.trimmed, trace.ops, c', frame.value)
  }

  /** One build: from `c` and the throttled WIDs to `c'`, the new throttled WIDs and perhaps a frame. */
  ghost predicate Built(hash: Hasher, c: Conn, throttled: set<WorldId>, input: BuildInput, trace: BuildTrace,
                        c': Conn, throttled': set<WorldId>, frame: Option<StateFrame>)
    requires input.phase < input.cfg.keyframeInterval
  {
    if Forced(c, input) || PeriodicDue(c, input) then
      throttled' == {} && frame.Some? && KeyframeSent(hash, Opened(c, input), input, Forced(c, input), trace.ops, c', frame.value)
    else
      DeltaBuilt(hash, c, throttled, input, trace, c', throttled', frame)
  }

  /** The build relation as a value. */
  ghost function Builds(hash: Hasher): (Conn, set<WorldId>, BuildInput, BuildTrace, Conn, set<WorldId>, Option<StateFrame>) -> bool {
    (c: Conn, throttled: set<WorldId>, input: BuildInput, trace: BuildTrace, c': Conn, throttled': set<WorldId>,
     frame: Option<StateFrame>) =>
      input.phase < input.cfg.keyframeInterval && Built(hash, c, throttled, input, trace, c', throttled', frame)
  }
}
