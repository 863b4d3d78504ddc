/** What a delta frame says about each WID, and the two ways of scanning for it: over everything
    visible or acknowledged, or over the candidates only when the visible set came from the cache. */
module FrameScan {
  import opened Integers
  import opened StreamTypes
  import opened Connection

  /** Intervals are in ticks. */
  datatype Config = Config(
    dataInterval: nat, slowInterval: nat, keyframeInterval: nat,
    maxUnackedFrames: nat, maxUnackedBytes: nat, maxFids: nat, maxUpdates: nat)

  datatype Decision = Skip | DoEnter | DoUpdate | DoLeave | Throttled {
    predicate Sends() { DoEnter? || DoUpdate? || DoLeave? }
  }


  /** Everything one delta build looks at. */
  datatype Scan = Scan(
    acked: map<WorldId, Tracked>, current: map<WorldId, Tracked>, global: map<WorldId, EntityState>,
    visible: set<WorldId>, tick: nat, cfg: Config)
  {
    function Interval(frequency: FrequencyClass): nat {
      if frequency == Slow then cfg.slowInterval else cfg.dataInterval
    }

    /** The send tick of the current view; the difference is taken in 64 bits. */
    predicate TooEarly(w: WorldId, frequency: FrequencyClass) {
      var lastSent := if w in current then current[w].lastSent else 0;
      frequency != OnChange && (tick - lastSent) % U64 < Interval(frequency)
    }

    function Decide(w: WorldId): Decision {
      if w in visible then
        if w !in global then Skip
        else if w !in acked then DoEnter
        else if acked[w].hash == global[w].hash then Skip
        else if TooEarly(w, global[w].projected.frequency) then Throttled
        else DoUpdate
      else if w in acked then DoLeave
      else Skip
    }

    function All(): set<WorldId> {
      visible + acked.Keys
    }

    function Entering(done: set<WorldId>): set<WorldId> {
      set w | w in done && Decide(w) == DoEnter
    }

    function Held(done: set<WorldId>): set<WorldId> {
      set w | w in done && Decide(w) == Throttled
    }

    function Leaving(done: set<WorldId>): set<WorldId> {
      set w | w in done && Decide(w) == DoLeave
    }

    function FidFor(fids: map<WorldId, FeatureId>, w: WorldId): FeatureId {
      if w in acked then acked[w].fid else if w in fids then fids[w] else 0
    }

    function OpFor(fids: map<WorldId, FeatureId>, w: WorldId): SentOp {
      match Decide(w)
      case DoEnter => SentOp(Enter, w, FidFor(fids, w), global[w].hash)
      case DoUpdate => SentOp(Update, w, FidFor(fids, w), global[w].hash)
      case _ => SentOp(Leave, w, FidFor(fids, w), 0)
    }

    /** The operations for the WIDs in `done`. */
    ghost function OpsFor(fids: map<WorldId, FeatureId>, done: set<WorldId>): Ops {
      Tabulate((set w | w in done && Decide(w).Sends()), w => OpFor(fids, w))
    }

    /** What the entered and updated WIDs in `done` become in the current view. */
    ghost function LandingFor(fids: map<WorldId, FeatureId>, done: set<WorldId>): map<WorldId, Tracked> {
      Tabulate((set w | w in done && (Decide(w) == DoEnter || Decide(w) == DoUpdate)), w => Landed(fids, w))
    }

    function Landed(fids: map<WorldId, FeatureId>, w: WorldId): Tracked {
      if w in global then Tracked(FidFor(fids, w), global[w].hash, global[w].projected.frequency, tick)
      else Tracked(0, 0, OnChange, 0)
    }

    /** The client, once it has what was acknowledged, already shows what `w` is. */
    predicate Agrees(w: WorldId) {
      if w in visible && w in global then w in acked && acked[w].hash == global[w].hash else w in visible || w !in acked
    }
  }

  datatype ScanResult = ScanResult(ops: Ops, landing: map<WorldId, Tracked>, throttled: set<WorldId>, table: FidTable)

  /** The outcome of visiting the WIDs in `done`, entering WIDs getting FIDs in the given order. */
  ghost function ScanOver(scan: Scan, table: FidTable, order: seq<WorldId>, done: set<WorldId>): ScanResult {
    var table' := MapFids(table, order, scan.Entering(done));
    ScanResult(scan.OpsFor(table'.fids, done), scan.LandingFor(table'.fids, done), scan.Held(done), table')
  }

  function Elements(s: seq<WorldId>): set<WorldId> {
    set w | w in s
  }

  ghost function FullScan(scan: Scan, table: FidTable, visible: seq<WorldId>): ScanResult {
    ScanOver(scan, table, visible, scan.All())
  }

  /** WIDs that can have changed since the last build, when the visible set is the same as then. */
  function Candidates(counts: map<WorldId, nat>, throttled: set<WorldId>, changed: seq<WorldId>, visible: set<WorldId>)
    : set<WorldId>
  {
    counts.Keys + throttled + (Elements(changed) * visible)
  }

  /** If nothing outside the candidates disagrees, the cached scan is the full scan: same operations,
      landing points, throttled WIDs and FIDs. */
  lemma QuietOutsideCandidates(scan: Scan, table: FidTable, visible: seq<WorldId>, candidates: seq<WorldId>)
    requires Ascending(visible) && Elements(visible) == scan.visible && Ascending(candidates)
    requires forall w | w !in candidates :: scan.Agrees(w)
    ensures ScanOver(scan, table, candidates, Elements(candidates)) == FullScan(scan, table, visible)
  {
    var c, all := Elements(candidates), scan.All();
    forall w | w !in candidates
      ensures scan.Decide(w) == Skip
    {
      assert scan.Agrees(w);
    }
    assert scan.Entering(c) == scan.Entering(all);
    assert scan.Held(c) == scan.Held(all);
    MapFidsAgree(table, candidates, visible, scan.Entering(c));
    var fids := MapFids(table, visible, scan.Entering(c)).fids;
    assert scan.OpsFor(fids, c) == scan.OpsFor(fids, all);
    assert scan.LandingFor(fids, c) == scan.LandingFor(fids, all);
  }

  /** The cached scan is the full scan exactly when nothing outside the candidates disagrees. */
  lemma CachedScanRefinesFullScan(scan: Scan, table: FidTable, visible: seq<WorldId>, candidates: seq<WorldId>)
    requires Ascending(visible) && Elements(visible) == scan.visible && Ascending(candidates)
    ensures ScanOver(scan, table, candidates, Elements(candidates)) == FullScan(scan, table, visible)
       <==> forall w | w !in candidates :: scan.Agrees(w)
  {
    var cached, full := ScanOver(scan, table, candidates, Elements(candidates)), FullScan(scan, table, visible);
    if forall w | w !in candidates :: scan.Agrees(w) {
      QuietOutsideCandidates(scan, table, visible, candidates);
    }
    if cached == full {
      forall w | w !in candidates
        ensures scan.Agrees(w)
      {
        assert w in cached.ops <==> w in full.ops;
        assert w in cached.throttled <==> w in full.throttled;
      }
    }
  }
}
