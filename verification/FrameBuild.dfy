/** The frame builder: one connection, one tick, one frame or none. */
module FrameBuild {
  import opened Options
  import opened StreamTypes
  import opened Connection
  import opened FrameScan
  import opened DeltaBuild
  import opened FrameSpec
  import opened TrimUpdates
  import opened Replica
  import opened SortedOps
  import opened Sorting

  lemma EnterOne(input: BuildInput, table: FidTable, done: set<WorldId>, w: WorldId)
    requires w !in done && w in input.global
    requires forall u | u in done && u in input.global :: u in table.fids
    ensures EnterOpsOf(input, table.With(w).fids, done + {w}) ==
            EnterOpsOf(input, table.fids, done)[w := SentOp(Enter, w, table.With(w).fids[w], input.global[w].hash)]
    ensures EnterViewOf(input, table.With(w).fids, done + {w}) ==
            EnterViewOf(input, table.fids, done)[w := Tracked(table.With(w).fids[w], input.global[w].hash, input.global[w].projected.frequency, input.tick)]
  {
  }

  lemma EnterNone(input: BuildInput, fids: map<WorldId, FeatureId>, done: set<WorldId>, w: WorldId)
    requires w !in input.global
    ensures EnterOpsOf(input, fids, done + {w}) == EnterOpsOf(input, fids, done)
    ensures EnterViewOf(input, fids, done + {w}) == EnterViewOf(input, fids, done)
  {
  }

  /** Enters every shown entity, in ascending WID order. */
  method EnterShown(ghost hash: Hasher, input: BuildInput, table: FidTable)
    returns (table': FidTable, entities: seq<EntityFrame>, ops: seq<SentOp>, view: map<WorldId, Tracked>)
    requires input.Ok(hash)
    ensures table' == MapFids(table, input.visible, Shown(input))
    ensures ops == EntityOps(hash, Enter, entities)
    ensures Lists(ops, EnterOpsOf(input, table'.fids, Elements(input.visible)))
    ensures view == EnterViewOf(input, table'.fids, Elements(input.visible)) && Sorted(ByEntityWid, entities)
  {
    var visible := input.visible;
    table', entities, ops, view := table, [], [], map[];
    for i := 0 to |visible|
      invariant table' == MapFids(table, visible[..i], Shown(input))
      invariant Entered(hash, input, table', Elements(visible[..i]), entities, ops, view)
      invariant Sorted(ByEntityWid, entities) && EarlierWids(entities, visible, i)
    {
      PrefixStep(visible, i);
      NextWid(entities, visible, i);
      if visible[i] in input.global {
        table', entities, ops, view := EnterEntity(hash, input, table', entities, ops, view, visible[i], Elements(visible[..i]));
      } else {
        EnterNone(input, table'.fids, Elements(visible[..i]), visible[i]);
      }
    }
    assert visible[..|visible|] == visible;
  }

  /** Every entity is one of the first visible ones. */
  predicate EarlierWids(entities: seq<EntityFrame>, visible: seq<WorldId>, i: nat)
    requires i <= |visible|
  {
    forall k | 0 <= k < |entities| :: entities[k].wid in visible[..i]
  }

  lemma NextWid(entities: seq<EntityFrame>, visible: seq<WorldId>, i: nat)
    requires Ascending(visible) && i < |visible| && EarlierWids(entities, visible, i) && Sorted(ByEntityWid, entities)
    ensures EarlierWids(entities, visible, i + 1)
    ensures forall e: EntityFrame | e.wid == visible[i] :: Sorted(ByEntityWid, entities + [e]) && EarlierWids(entities + [e], visible, i + 1)
  {
    assert visible[..i + 1] == visible[..i] + [visible[i]];
    forall k | 0 <= k < |entities|
      ensures entities[k].wid <= visible[i]
    {
      var j :| 0 <= j < i && visible[..i][j] == entities[k].wid;
    }
  }

  ghost predicate Entered(hash: Hasher, input: BuildInput, table: FidTable, done: set<WorldId>,
                          entities: seq<EntityFrame>, ops: seq<SentOp>, view: map<WorldId, Tracked>)
  {
    && (forall u | u in done && u in input.global :: u in table.fids)
    && ops == EntityOps(hash, Enter, entities)
    && Lists(ops, EnterOpsOf(input, table.fids, done))
    && view == EnterViewOf(input, table.fids, done)
  }

  method EnterEntity(ghost hash: Hasher, input: BuildInput, table: FidTable, entities: seq<EntityFrame>, ops: seq<SentOp>,
                     view: map<WorldId, Tracked>, w: WorldId, ghost done: set<WorldId>)
    returns (table': FidTable, entities': seq<EntityFrame>, ops': seq<SentOp>, view': map<WorldId, Tracked>)
    requires HashesOk(hash, input.global) && w in input.global && w !in done
    requires Entered(hash, input, table, done, entities, ops, view)
    ensures table' == table.With(w)
    ensures exists e: EntityFrame :: e.wid == w && entities' == entities + [e]
    ensures Entered(hash, input, table', done + {w}, entities', ops', view')
  {
    table' := table.With(w);
    var fid, state := table'.fids[w], input.global[w];
    EnterOne(input, table, done, w);
    ListsAppend(ops, EnterOpsOf(input, table.fids, done), SentOp(Enter, w, fid, state.hash));
    entities' := entities + [EntityFrame(w, fid, state.projected)];
    view' := view[w := Tracked(fid, state.hash, state.projected.frequency, input.tick)];
    ops' := ops + [SentOp(Enter, w, fid, state.hash)];
    assert EntityOps(hash, Enter, entities') == EntityOps(hash, Enter, entities) + [SentOp(Enter, w, fid, state.hash)];
  }

  lemma LeaveOne(acked: map<WorldId, Tracked>, visible: seq<WorldId>, done: set<WorldId>, m: Ops, w: WorldId)
    requires w in acked
    ensures m + LeaveOpsOf(acked, visible, done + {w}) ==
            if w in visible then m + LeaveOpsOf(acked, visible, done)
            else (m + LeaveOpsOf(acked, visible, done))[w := SentOp(Leave, w, acked[w].fid, 0)]
  {
    var a, b := LeaveOpsOf(acked, visible, done + {w}), LeaveOpsOf(acked, visible, done);
    assert a == if w in visible then b else b[w := SentOp(Leave, w, acked[w].fid, 0)];
  }

  /** Records the leave of every acknowledged WID that is not visible. */
  method LeaveHidden(acked: map<WorldId, Tracked>, visible: seq<WorldId>, ops: seq<SentOp>, ghost m: Ops)
    returns (ops': seq<SentOp>)
    requires Lists(ops, m) && m.Keys <= Elements(visible)
    ensures Lists(ops', m + LeaveOpsOf(acked, visible, acked.Keys))
  {
    ops' := ops;
    var todo := acked.Keys;
    ghost var done := {};
    assert m + LeaveOpsOf(acked, visible, {}) == m;
    while todo != {}
      invariant done + todo == acked.Keys && done !! todo
      invariant Lists(ops', m + LeaveOpsOf(acked, visible, done))
    {
      var w :| w in todo;
      LeaveOne(acked, visible, done, m, w);
      if w !in visible {
        var op := SentOp(Leave, w, acked[w].fid, 0);
        ListsAppend(ops', m + LeaveOpsOf(acked, visible, done), op);
        ops' := ops' + [op];
      }
      todo, done := todo - {w}, done + {w};
    }
    assert done == acked.Keys;
  }

  /** Hands the frame's operations to the queue, enforces its limits and advances the sequence. */
  method Commit(conn: ConnectionProjection, input: BuildInput, ops: seq<SentOp>)
    requires conn.queue.Balanced()
    modifies conn
    ensures Committed(old(conn.State()), input, ops, conn.State())
  {
    ghost var c := conn.State();
    conn.RecordSent(input.snapshotId, ops);
    ghost var recorded := conn.queue;
    conn.sequence := conn.sequence + 1;
    var evicted := conn.EvictUnacked(input.cfg.maxUnackedFrames, input.cfg.maxUnackedBytes);
    if evicted {
      conn.schedule := conn.schedule.(needsKeyframe := true);
    }
    CommitHolds(c, input, ops, recorded, conn.State(), evicted);
  }

  lemma CommitHolds(c: Conn, input: BuildInput, ops: seq<SentOp>, recorded: SendQueue, c': Conn, evicted: bool)
    requires recorded.records == c.queue.records + [MakeRecord(input.snapshotId, ops)]
    requires c'.queue.Balanced()
    requires var n := EvictCount(recorded.records, input.cfg.maxUnackedFrames, input.cfg.maxUnackedBytes);
             c'.queue.records == recorded.records[n..] && evicted == AnyUnacked(recorded.records, n, c.baseline)
    requires c' == c.(sequence := c.sequence + 1, queue := c'.queue,
                      schedule := if evicted then c.schedule.(needsKeyframe := true) else c.schedule)
    ensures Committed(c, input, ops, c')
  {
  }

  method KeyframeContents(ghost hash: Hasher, ghost c: Conn, table: FidTable, acked: map<WorldId, Tracked>, input: BuildInput)
    returns (table': FidTable, entities: seq<EntityFrame>, ops: seq<SentOp>, view: map<WorldId, Tracked>)
    requires input.Ok(hash) && acked == c.acked
    ensures table' == MapFids(table, input.visible, Shown(input))
    ensures Lists(ops, KeyframeOps(c, input, table'.fids))
    ensures Lists(EntityOps(hash, Enter, entities), OfKind(KeyframeOps(c, input, table'.fids), Enter)) && Sorted(ByEntityWid, entities)
    ensures view == KeyframeView(input, table'.fids)
  {
    var enterOps;
    table', entities, enterOps, view := EnterShown(hash, input, table);
    ops := LeaveHidden(acked, input.visible, enterOps, EnterOpsOf(input, table'.fids, Elements(input.visible)));
    ghost var unsorted := ops;
    ops := SortBy(ByWid, ops);
    KeyframeTells(hash, c, input, table'.fids, enterOps, unsorted, ops);
    assert Elements(input.visible) * input.global.Keys == Shown(input);
  }

  method BuildKeyframe(ghost hash: Hasher, conn: ConnectionProjection, input: BuildInput, forced: bool)
    returns (frame: StateFrame, ghost ops: seq<SentOp>)
    requires conn.queue.Balanced() && input.Ok(hash)
    modifies conn
    ensures KeyframeSent(hash, old(conn.State()), input, forced, ops, conn.State(), frame)
  {
    ghost var c := conn.State();
    var table, entities, sorted, view := KeyframeContents(hash, c, conn.table, conn.ackedView, input);
    ops := sorted;
    frame := Keyframe(input.snapshotId, 0, entities);
    conn.Install(table, view, Schedule(input.policyVersion, false, input.tick,
                                       input.tick + input.cfg.keyframeInterval - if forced then input.phase else 0));
    assert conn.State() == KeyframePrepared(c, input, forced);
    Commit(conn, input, sorted);
  }

  lemma KeyframeTells(hash: Hasher, c: Conn, input: BuildInput, fids: map<WorldId, FeatureId>,
                      enterOps: seq<SentOp>, allOps: seq<SentOp>, sorted: seq<SentOp>)
    requires Lists(enterOps, EnterOpsOf(input, fids, Elements(input.visible)))
    requires Lists(allOps, KeyframeOps(c, input, fids)) && multiset(sorted) == multiset(allOps)
    ensures Lists(sorted, KeyframeOps(c, input, fids))
    ensures Lists(enterOps, OfKind(KeyframeOps(c, input, fids), Enter))
  {
    ListsPermuted(allOps, sorted, KeyframeOps(c, input, fids));
    var k, e := OfKind(KeyframeOps(c, input, fids), Enter), EnterOpsOf(input, fids, Elements(input.visible));
    assert k.Keys == e.Keys;
  }

  /** `view` with the WIDs of `reset` taken from `acked`. */
  ghost predicate ResetOn(view': map<WorldId, Tracked>, view: map<WorldId, Tracked>, acked: map<WorldId, Tracked>, reset: set<WorldId>) {
    forall w :: SameAt(view', if w in reset then acked else view, w)
  }

  function ResetOne(view: map<WorldId, Tracked>, acked: map<WorldId, Tracked>, w: WorldId): map<WorldId, Tracked> {
    if w in acked then view[w := acked[w]] else view - {w}
  }

  /** Brings stale WIDs that this frame does not touch back to their acknowledged entries: first those
      an acknowledgement moved, then those still unacknowledged. */
  method ResetStale(view: map<WorldId, Tracked>, acked: map<WorldId, Tracked>, dirty: seq<WorldId>, counts: map<WorldId, nat>,
                    touched: set<WorldId>)
    returns (view': map<WorldId, Tracked>)
    ensures ResetOn(view', view, acked, Elements(dirty) + counts.Keys - touched)
  {
    view' := view;
    ghost var done := {};
    for i := 0 to |dirty|
      invariant ResetOn(view', view, acked, done)
      invariant Elements(dirty[..i]) - touched - counts.Keys <= done <= Elements(dirty) + counts.Keys - touched
    {
      var w := dirty[i];
      assert Elements(dirty[..i + 1]) == Elements(dirty[..i]) + {w};
      if w !in touched && w !in counts {
        view', done := ResetOne(view', acked, w), done + {w};
      }
    }
    assert dirty[..|dirty|] == dirty;
    var todo := counts.Keys;
    while todo != {}
      invariant ResetOn(view', view, acked, done) && todo <= counts.Keys
      invariant Elements(dirty) - touched - counts.Keys <= done <= Elements(dirty) + counts.Keys - touched
      invariant counts.Keys - todo - touched <= done
    {
      var w :| w in todo;
      if w !in touched {
        view', done := ResetOne(view', acked, w), done + {w};
      }
      todo := todo - {w};
    }
    assert done == Elements(dirty) + counts.Keys - touched;
  }

  /** Brings the current view in place to the acknowledged view overlaid by this frame. */
  method Converge(view: map<WorldId, Tracked>, acked: map<WorldId, Tracked>, dirty: seq<WorldId>, counts: map<WorldId, nat>,
                  landing: map<WorldId, Tracked>, leaving: set<WorldId>)
    returns (view': map<WorldId, Tracked>)
    ensures view' == Converged(view, acked, Elements(dirty) + counts.Keys, landing, leaving)
  {
    var reset := ResetStale(view, acked, dirty, counts, landing.Keys + leaving);
    view' := (reset + landing) - leaving;
    ConvergedAt(view, acked, Elements(dirty) + counts.Keys, landing, leaving, reset);
  }

  lemma ConvergedAt(view: map<WorldId, Tracked>, acked: map<WorldId, Tracked>, stale: set<WorldId>,
                    landing: map<WorldId, Tracked>, leaving: set<WorldId>, reset: map<WorldId, Tracked>)
    requires ResetOn(reset, view, acked, stale - (landing.Keys + leaving))
    ensures (reset + landing) - leaving == Converged(view, acked, stale, landing, leaving)
  {
    var a, b := (reset + landing) - leaving, Converged(view, acked, stale, landing, leaving);
    forall w
      ensures w in a <==> w in b
      ensures w in a ==> a[w] == b[w]
    {
      assert SameAt(reset, if w in stale - (landing.Keys + leaving) then acked else view, w);
    }
  }

  /** The scan of this build: of the candidates on a cache hit, of everything otherwise. */
  method RunScan(ghost hash: Hasher, ghost c: Conn, scan: Scan, table: FidTable, counts: map<WorldId, nat>,
                 throttled: set<WorldId>, input: BuildInput)
    returns (table': FidTable, acc: Acc, ghost candidates: seq<WorldId>, ghost done: set<WorldId>)
    requires input.Ok(hash) && scan == ScanOf(c, input) && table == c.table && counts == c.queue.counts
    ensures input.fromCache ==> CandidatesOk(c, input, throttled, candidates)
    ensures var found := Found(c, input, throttled, candidates);
            && table' == found.table && found.ops == scan.OpsFor(table'.fids, done)
            && found.landing == scan.LandingFor(table'.fids, done) && found.throttled == scan.Held(done)
    ensures Visited(hash, scan, table', done, acc) && Carries(scan, acc)
  {
    if input.fromCache {
      var list := CandidateList(counts, throttled, input.changed, input.visible);
      table', acc := ScanCandidates(hash, scan, table, list);
      candidates, done := list, Elements(list);
    } else {
      table', acc := ScanAll(hash, scan, table, input.visible);
      candidates, done := [], scan.All();
    }
  }

  /** The lists of a build are empty together with its operations. */
  lemma ListsEmptyTogether(hash: Hasher, scan: Scan, table: FidTable, done: set<WorldId>, acc: Acc)
    requires Visited(hash, scan, table, done, acc)
    ensures acc.enters == [] && acc.updates == [] && acc.leaves == [] <==> scan.OpsFor(table.fids, done) == map[]
  {
    var m := scan.OpsFor(table.fids, done);
    EmptyTogether(EntityOps(hash, Enter, acc.enters));
    EmptyTogether(EntityOps(hash, Update, acc.updates));
    EmptyTogether(LeaveOps(acc.leaves));
    if m != map[] {
      var w :| w in m;
      assert w in OfKind(m, m[w].kind);
    }
  }

  lemma EmptyTogether(ops: seq<SentOp>)
    ensures ops == [] <==> OpMap(ops) == map[]
  {
    if ops != [] {
      assert ops[|ops| - 1].wid in OpMap(ops);
    }
  }

  /** The three lists of a delta, one after the other, list all its operations. */
  lemma PartsList(hash: Hasher, delta: StateFrame, m: Ops)
    requires delta.Delta? && Keyed(m)
    requires Lists(EntityOps(hash, Enter, delta.enters), OfKind(m, Enter))
    requires Lists(EntityOps(hash, Update, delta.updates), OfKind(m, Update))
    requires Lists(LeaveOps(delta.leaves), OfKind(m, Leave))
    ensures Lists(FrameOps(hash, delta), m)
  {
    var l, e, u := LeaveOps(delta.leaves), EntityOps(hash, Enter, delta.enters), EntityOps(hash, Update, delta.updates);
    ListsConcat(l, OfKind(m, Leave), e, OfKind(m, Enter));
    ListsConcat(l + e, OfKind(m, Leave) + OfKind(m, Enter), u, OfKind(m, Update));
    var all := OfKind(m, Leave) + OfKind(m, Enter) + OfKind(m, Update);
    assert all.Keys == m.Keys by {
      forall w | w in m
        ensures w in all
      {
        assert w in OfKind(m, m[w].kind);
      }
    }
    assert all == m;
  }

  lemma {:induction false} ListsConcat(a: seq<SentOp>, m: Ops, b: seq<SentOp>, n: Ops)
    requires Lists(a, m) && Lists(b, n) && m.Keys !! n.Keys
    ensures Lists(a + b, m + n)
    decreases |b|
  {
    if b == [] {
      assert a + b == a && m + n == m;
    } else {
      var init, last := b[..|b| - 1], b[|b| - 1];
      OpMapContents(init);
      ListsConcat(a, m, init, OpMap(init));
      assert a + b == (a + init) + [last];
      ListsAppend(a + init, m + OpMap(init), last);
      assert (m + OpMap(init))[last.wid := last] == m + n;
    }
  }

  /** Everything a delta puts out: sorted lists, the record's operations and the new current view. */
  datatype DeltaParts = DeltaParts(frame: StateFrame, ops: seq<SentOp>, view: map<WorldId, Tracked>)

  /** `acc'` is `acc` without the updates of the WIDs in `trimmed`. */
  ghost predicate CutBy(hash: Hasher, scan: Scan, found: ScanResult, acc: Acc, trimmed: set<WorldId>, acc': Acc) {
    && Lists(acc'.ops, found.ops - trimmed)
    && Lists(EntityOps(hash, Update, acc'.updates), OfKind(found.ops - trimmed, Update))
    && acc'.landing == found.landing + FallBack(scan.acked, trimmed)
    && acc' == acc.(ops := acc'.ops, updates := acc'.updates, landing := acc'.landing)
  }

  /** Cuts the updates to the quota, if there are more. */
  method Trim(ghost hash: Hasher, scan: Scan, ghost table: FidTable, ghost done: set<WorldId>, ghost found: ScanResult, acc: Acc)
    returns (acc': Acc, ghost trimmed: set<WorldId>)
    requires HashesOk(hash, scan.global) && DistinctFids(scan.acked) && found.ops == scan.OpsFor(table.fids, done)
    requires Lists(acc.ops, found.ops) && acc.landing == found.landing
    requires Lists(EntityOps(hash, Update, acc.updates), OfKind(found.ops, Update))
    requires UpdatesOf(scan, acc.updates, OfKind(found.ops, Update).Keys)
    ensures TrimmedOk(scan, found, trimmed) && CutBy(hash, scan, found, acc, trimmed, acc')
  {
    if |acc.updates| > scan.cfg.maxUpdates {
      acc', trimmed := Cut(hash, scan, table, done, found, acc);
    } else {
      acc', trimmed := acc, {};
      NothingCut(scan, found, acc);
      NoCut(hash, scan, found, acc);
    }
  }

  lemma NoCut(hash: Hasher, scan: Scan, found: ScanResult, acc: Acc)
    requires Lists(acc.ops, found.ops) && acc.landing == found.landing
    requires Lists(EntityOps(hash, Update, acc.updates), OfKind(found.ops, Update))
    ensures CutBy(hash, scan, found, acc, {}, acc)
  {
    assert found.ops - {} == found.ops;
    var none := FallBack(scan.acked, {});
    assert none.Keys == {};
    assert found.landing + none == found.landing;
  }

  lemma NothingCut(scan: Scan, found: ScanResult, acc: Acc)
    requires UpdatesOf(scan, acc.updates, OfKind(found.ops, Update).Keys) && |acc.updates| <= scan.cfg.maxUpdates
    ensures TrimmedOk(scan, found, {})
  {
    var updated := OfKind(found.ops, Update).Keys;
    UpdateCount(scan, acc.updates, updated);
    assert updated - {} == updated;
  }

  method Cut(ghost hash: Hasher, scan: Scan, ghost table: FidTable, ghost done: set<WorldId>, ghost found: ScanResult, acc: Acc)
    returns (acc': Acc, ghost trimmed: set<WorldId>)
    requires HashesOk(hash, scan.global) && DistinctFids(scan.acked) && |acc.updates| > scan.cfg.maxUpdates
    requires Lists(acc.ops, found.ops) && acc.landing == found.landing && found.ops == scan.OpsFor(table.fids, done)
    requires UpdatesOf(scan, acc.updates, OfKind(found.ops, Update).Keys)
    ensures TrimmedOk(scan, found, trimmed) && CutBy(hash, scan, found, acc, trimmed, acc')
  {
    ghost var s := OfKind(found.ops, Update).Keys;
    var kept;
    kept, trimmed := KeepUrgent(scan, acc.updates, scan.cfg.maxUpdates, s);
    UpdateCount(scan, kept, s - trimmed);
    TrimmedUrgent(scan, kept, s, trimmed);
    assert TrimmedOk(scan, found, trimmed);
    var sorted := SortBy(ByWid, acc.ops);
    ListsPermuted(acc.ops, sorted, found.ops);
    TrimReady(scan, table.fids, done, sorted, s, trimmed);
    var ops, landing := EraseTrimmed(scan, sorted, acc.landing, kept, s, trimmed);
    TrimmedTell(hash, scan, table.fids, done, kept, s, trimmed);
    acc' := acc.(updates := kept, ops := ops, landing := landing);
  }

  /** The delta in its output order: leaves by FID, enters by WID, updates by FID. */
  method SortedDelta(ghost hash: Hasher, c: Conn, input: BuildInput, acc: Acc, ghost m: Ops) returns (frame: StateFrame)
    requires Keyed(m)
    requires Lists(EntityOps(hash, Enter, acc.enters), OfKind(m, Enter))
    requires Lists(EntityOps(hash, Update, acc.updates), OfKind(m, Update))
    requires Lists(LeaveOps(acc.leaves), OfKind(m, Leave))
    ensures frame.Delta? && frame.snapshotId == input.snapshotId && frame.baseline == c.baseline
    ensures Lists(FrameOps(hash, frame), m)
    ensures Sorted(ByLeaveFid, frame.leaves) && Sorted(ByEntityWid, frame.enters) && Sorted(ByFid, frame.updates)
  {
    frame := Delta(input.snapshotId, c.baseline, SortBy(ByEntityWid, acc.enters), SortBy(ByFid, acc.updates), SortBy(ByLeaveFid, acc.leaves));
    SortBySorted(ByEntityWid, acc.enters);
    SortBySorted(ByFid, acc.updates);
    SortBySorted(ByLeaveFid, acc.leaves);
    SortedEntities(hash, Enter, ByEntityWid, acc.enters, OfKind(m, Enter));
    SortedEntities(hash, Update, ByFid, acc.updates, OfKind(m, Update));
    SortedLeaves(acc.leaves, OfKind(m, Leave));
    PartsList(hash, frame, m);
  }

  lemma SortedEntities(hash: Hasher, kind: OpKind, le: (EntityFrame, EntityFrame) -> bool, list: seq<EntityFrame>, m: Ops)
    requires Lists(EntityOps(hash, kind, list), m)
    ensures Lists(EntityOps(hash, kind, SortBy(le, list)), m)
  {
    var f := (e: EntityFrame) => SentOp(kind, e.wid, e.fid, hash(e.entity));
    assert EntityOps(hash, kind, list) == Mapped(f, list);
    assert EntityOps(hash, kind, SortBy(le, list)) == Mapped(f, SortBy(le, list));
    SortMapped(le, list, f);
    ListsPermuted(Mapped(f, list), Mapped(f, SortBy(le, list)), m);
  }

  lemma SortedLeaves(list: seq<EntityLeave>, m: Ops)
    requires Lists(LeaveOps(list), m)
    ensures Lists(LeaveOps(SortBy(ByLeaveFid, list)), m)
  {
    var f := (e: EntityLeave) => SentOp(Leave, e.wid, e.fid, 0);
    assert LeaveOps(list) == Mapped(f, list);
    assert LeaveOps(SortBy(ByLeaveFid, list)) == Mapped(f, SortBy(ByLeaveFid, list));
    SortMapped(ByLeaveFid, list, f);
    ListsPermuted(Mapped(f, list), Mapped(f, SortBy(ByLeaveFid, list)), m);
  }

  lemma NothingFound(scan: Scan, table: FidTable, order: seq<WorldId>, done: set<WorldId>)
    requires ScanOver(scan, table, order, done).ops == map[]
    ensures ScanOver(scan, table, order, done).table == table
  {
    var need := scan.Entering(done);
    forall w | w in done
      ensures w !in need
    {
      assert scan.Decide(w).Sends() ==> w in scan.OpsFor(MapFids(table, order, need).fids, done);
    }
    assert need == {};
    MapFidsNone(table, order);
  }

  lemma {:induction false} MapFidsNone(table: FidTable, order: seq<WorldId>)
    ensures MapFids(table, order, {}) == table
  {
    if order != [] {
      MapFidsNone(table, order[..|order| - 1]);
    }
  }

  /** The contents of a delta, from the finished scan. */
  method DeltaContents(ghost hash: Hasher, c: Conn, scan: Scan, ghost table: FidTable, input: BuildInput, acc: Acc,
                       ghost done: set<WorldId>, ghost found: ScanResult)
    returns (frame: StateFrame, ops: seq<SentOp>, view: map<WorldId, Tracked>, ghost trimmed: set<WorldId>)
    requires input.Ok(hash) && scan == ScanOf(c, input) && DistinctFids(c.acked)
    requires Visited(hash, scan, table, done, acc) && Carries(scan, acc)
    requires found.ops == scan.OpsFor(table.fids, done) && found.landing == scan.LandingFor(table.fids, done) && found.table == table
    ensures TrimmedOk(scan, found, trimmed) && Lists(ops, found.ops - trimmed)
    ensures frame.Delta? && frame.snapshotId == input.snapshotId && frame.baseline == c.baseline
    ensures Lists(FrameOps(hash, frame), found.ops - trimmed)
    ensures Sorted(ByLeaveFid, frame.leaves) && Sorted(ByEntityWid, frame.enters) && Sorted(ByFid, frame.updates)
    ensures view == DeltaPrepared(c, found, trimmed).current
  {
    var cut;
    cut, trimmed := TrimFound(hash, scan, table, done, found, acc);
    frame := SortedDelta(hash, c, input, cut, found.ops - trimmed);
    ops := cut.ops;
    view := Converge(c.current, c.acked, c.dirty, c.queue.counts, cut.landing, cut.leaving);
  }

  method TrimFound(ghost hash: Hasher, scan: Scan, ghost table: FidTable, ghost done: set<WorldId>, ghost found: ScanResult, acc: Acc)
    returns (cut: Acc, ghost trimmed: set<WorldId>)
    requires HashesOk(hash, scan.global) && DistinctFids(scan.acked)
    requires Visited(hash, scan, table, done, acc) && Carries(scan, acc)
    requires found.ops == scan.OpsFor(table.fids, done) && found.landing == scan.LandingFor(table.fids, done)
    ensures TrimmedOk(scan, found, trimmed)
    ensures Lists(cut.ops, found.ops - trimmed) && Keyed(found.ops - trimmed)
    ensures Lists(EntityOps(hash, Enter, cut.enters), OfKind(found.ops - trimmed, Enter))
    ensures Lists(EntityOps(hash, Update, cut.updates), OfKind(found.ops - trimmed, Update))
    ensures Lists(LeaveOps(cut.leaves), OfKind(found.ops - trimmed, Leave))
    ensures cut.landing == found.landing + FallBack(scan.acked, trimmed)
    ensures cut.leaving == OfKind(found.ops, Leave).Keys
  {
    ToldUpdates(hash, scan, table.fids, done, acc.updates);
    cut, trimmed := Trim(hash, scan, table, done, found, acc);
    UncutKinds(found.ops, trimmed);
    OpMapContents(cut.ops);
    LeavingKeys(scan, table.fids, done);
  }

  lemma LeavingKeys(scan: Scan, fids: map<WorldId, FeatureId>, done: set<WorldId>)
    ensures scan.Leaving(done) == OfKind(scan.OpsFor(fids, done), Leave).Keys
  {
    var m := scan.OpsFor(fids, done);
    forall w
      ensures w in scan.Leaving(done) <==> w in OfKind(m, Leave).Keys
    {
      assert w in m ==> m[w] == scan.OpFor(fids, w);
    }
  }

  lemma UncutKinds(m: Ops, trimmed: set<WorldId>)
    requires trimmed <= OfKind(m, Update).Keys
    ensures OfKind(m - trimmed, Enter) == OfKind(m, Enter)
    ensures OfKind(m - trimmed, Leave) == OfKind(m, Leave)
  {
  }

  method BuildDelta(ghost hash: Hasher, conn: ConnectionProjection, input: BuildInput, throttled: set<WorldId>)
    returns (throttled': set<WorldId>, frame: Option<StateFrame>, ghost trace: BuildTrace)
    requires conn.queue.Balanced() && input.Ok(hash) && DistinctFids(conn.ackedView)
    modifies conn
    ensures DeltaBuilt(hash, old(conn.State()), throttled, input, trace, conn.State(), throttled', frame)
  {
    var c := conn.State();
    var scan := Scan(c.acked, c.current, input.global, Elements(input.visible), input.tick, input.cfg);
    var table, acc;
    ghost var candidates, done;
    table, acc, candidates, done := RunScan(hash, c, scan, c.table, c.queue.counts, throttled, input);
    ghost var found := Found(c, input, throttled, candidates);
    throttled' := acc.throttled;
    ListsEmptyTogether(hash, scan, table, done, acc);
    if acc.enters == [] && acc.updates == [] && acc.leaves == [] {
      conn.table := table;
      NothingFound(scan, c.table, if input.fromCache then candidates else input.visible, if input.fromCache then Elements(candidates) else scan.All());
      frame, trace := None, BuildTrace(candidates, {}, []);
    } else {
      var delta, ops, view;
      ghost var trimmed;
      delta, ops, view, trimmed := DeltaContents(hash, c, scan, table, input, acc, done, found);
      conn.Install(table, view, c.schedule);
      assert conn.State() == DeltaPrepared(c, found, trimmed);
      Commit(conn, input, ops);
      frame, trace := Some(delta), BuildTrace(candidates, trimmed, ops);
    }
  }

  /** Builds the frame of one connection for one tick. */
  method BuildFrame(ghost hash: Hasher, conn: ConnectionProjection, input: BuildInput, throttled: set<WorldId>)
    returns (throttled': set<WorldId>, frame: Option<StateFrame>, ghost trace: BuildTrace)
    requires conn.queue.Balanced() && input.Ok(hash) && DistinctFids(conn.ackedView)
    modifies conn
    ensures Built(hash, old(conn.State()), throttled, input, trace, conn.State(), throttled', frame)
  {
    ghost var c := conn.State();
    var due := if conn.schedule.nextKeyframe != 0 then input.tick >= conn.schedule.nextKeyframe
               else input.tick + input.phase >= conn.schedule.lastKeyframe + input.cfg.keyframeInterval;
    var forced := conn.schedule.needsKeyframe || conn.schedule.policyVersion != input.policyVersion;
    var unmapped := 0;
    if !input.fromCache {
      for i := 0 to |input.visible|
        invariant unmapped == CountUnmapped(conn.table.fids, input.visible[..i])
        modifies {}
      {
        assert input.visible[..i + 1][..i] == input.visible[..i];
        if input.visible[i] !in conn.table.fids {
          unmapped := unmapped + 1;
        }
      }
      assert input.visible[..|input.visible|] == input.visible;
    }
    if |conn.table.fids| + unmapped > input.cfg.maxFids {
      conn.ResetStreamEpoch(input.snapshotId);
      forced := true;
    }
    if forced || due {
      var keyframe;
      ghost var ops;
      keyframe, ops := BuildKeyframe(hash, conn, input, forced);
      throttled', frame, trace := {}, Some(keyframe), BuildTrace([], {}, ops);
    } else {
      throttled', frame, trace := BuildDelta(hash, conn, input, throttled);
    }
  }
}
