/** Building the contents of a delta frame: visiting WIDs, and trimming the updates to the quota. */
module DeltaBuild {
  import opened StreamTypes
  import opened Connection
  import opened FrameScan
  import opened Replica

  /** The vectors and tables one delta build fills in. */
  datatype Acc = Acc(
    enters: seq<EntityFrame>, updates: seq<EntityFrame>, leaves: seq<EntityLeave>, ops: seq<SentOp>,
    landing: map<WorldId, Tracked>, leaving: set<WorldId>, throttled: set<WorldId>)

  const NO_ACC := Acc([], [], [], [], map[], {}, {})

  ghost function OfKind(m: Ops, kind: OpKind): Ops {
    Tabulate((set w | w in m && m[w].kind == kind), w => if w in m then m[w] else SentOp(kind, 0, 0, 0))
  }

  /** The stored hashes are the hashes of the stored projections. */
  predicate HashesOk(hash: Hasher, global: map<WorldId, EntityState>) {
    forall w | w in global :: global[w].hash == hash(global[w].projected)
  }

  /** What the lists and tables of a build say, free of the order in which they were filled. */
  datatype Told = Told(
    record: Ops, enters: Ops, updates: Ops, leaves: Ops, distinct: bool,
    landing: map<WorldId, Tracked>, leaving: set<WorldId>, throttled: set<WorldId>)

  ghost function Tells(hash: Hasher, acc: Acc): Told {
    var enters, updates, leaves :=
      EntityOps(hash, Enter, acc.enters), EntityOps(hash, Update, acc.updates), LeaveOps(acc.leaves);
    Told(OpMap(acc.ops), OpMap(enters), OpMap(updates), OpMap(leaves),
         DistinctWids(acc.ops) && DistinctWids(enters) && DistinctWids(updates) && DistinctWids(leaves),
         acc.landing, acc.leaving, acc.throttled)
  }

  ghost function Expected(scan: Scan, fids: map<WorldId, FeatureId>, done: set<WorldId>): Told {
    var m := scan.OpsFor(fids, done);
    Told(m, OfKind(m, Enter), OfKind(m, Update), OfKind(m, Leave), true,
         scan.LandingFor(fids, done), scan.Leaving(done), scan.Held(done))
  }

  /** `acc` is the outcome of visiting the WIDs in `done`, all that entered having FIDs. */
  ghost predicate Visited(hash: Hasher, scan: Scan, table: FidTable, done: set<WorldId>, acc: Acc) {
    scan.Entering(done) <= table.fids.Keys && Tells(hash, acc) == Expected(scan, table.fids, done)
  }

  /** Every entered or updated entity goes out with its current projection. */
  ghost predicate Carries(scan: Scan, acc: Acc) {
    Projections(scan, acc.enters) && Projections(scan, acc.updates)
  }

  ghost predicate Projections(scan: Scan, list: seq<EntityFrame>) {
    forall e | e in list :: e.wid in scan.global && e.entity == scan.global[e.wid].projected
  }

  lemma ListsAppend(ops: seq<SentOp>, m: Ops, op: SentOp)
    requires Lists(ops, m) && op.wid !in m
    ensures Lists(ops + [op], m[op.wid := op])
  {
    OpMapContents(ops);
    OpMapAppend(ops, op);
  }

  lemma OfKindAppend(m: Ops, op: SentOp, kind: OpKind)
    requires op.wid !in m
    ensures OfKind(m[op.wid := op], kind) == if kind == op.kind then OfKind(m, kind)[op.wid := op] else OfKind(m, kind)
  {
  }

  /** `acc` with one more operation on its lists. */
  function Push(hash: Hasher, acc: Acc, kind: OpKind, e: EntityFrame): Acc {
    var ops := acc.ops + [SentOp(kind, e.wid, e.fid, if kind == Leave then 0 else hash(e.entity))];
    match kind
    case Enter => acc.(enters := acc.enters + [e], ops := ops)
    case Update => acc.(updates := acc.updates + [e], ops := ops)
    case Leave => acc.(leaves := acc.leaves + [EntityLeave(e.wid, e.fid)], ops := ops)
  }

  lemma PushTells(hash: Hasher, acc: Acc, kind: OpKind, e: EntityFrame, m: Ops)
    requires e.wid !in m
    requires Lists(acc.ops, m) && Lists(EntityOps(hash, Enter, acc.enters), OfKind(m, Enter))
    requires Lists(EntityOps(hash, Update, acc.updates), OfKind(m, Update)) && Lists(LeaveOps(acc.leaves), OfKind(m, Leave))
    ensures var m' := m[e.wid := SentOp(kind, e.wid, e.fid, if kind == Leave then 0 else hash(e.entity))];
            Tells(hash, Push(hash, acc, kind, e)) ==
            Told(m', OfKind(m', Enter), OfKind(m', Update), OfKind(m', Leave), true, acc.landing, acc.leaving, acc.throttled)
  {
    var op := SentOp(kind, e.wid, e.fid, if kind == Leave then 0 else hash(e.entity));
    ListsAppend(acc.ops, m, op);
    OfKindAppend(m, op, Enter);
    OfKindAppend(m, op, Update);
    OfKindAppend(m, op, Leave);
    match kind
    case Enter =>
      assert EntityOps(hash, Enter, acc.enters + [e]) == EntityOps(hash, Enter, acc.enters) + [op];
      ListsAppend(EntityOps(hash, Enter, acc.enters), OfKind(m, Enter), op);
    case Update =>
      assert EntityOps(hash, Update, acc.updates + [e]) == EntityOps(hash, Update, acc.updates) + [op];
      ListsAppend(EntityOps(hash, Update, acc.updates), OfKind(m, Update), op);
    case Leave =>
      assert LeaveOps(acc.leaves + [EntityLeave(e.wid, e.fid)]) == LeaveOps(acc.leaves) + [op];
      ListsAppend(LeaveOps(acc.leaves), OfKind(m, Leave), op);
  }

  lemma VisitOps(scan: Scan, table: FidTable, table': FidTable, done: set<WorldId>, w: WorldId)
    requires w !in done && table'.Extends(table) && scan.Entering(done) <= table.fids.Keys
    ensures scan.OpsFor(table'.fids, done + {w}) ==
            if scan.Decide(w).Sends() then scan.OpsFor(table.fids, done)[w := scan.OpFor(table'.fids, w)]
            else scan.OpsFor(table.fids, done)
  {
    forall u | u in done && scan.Decide(u).Sends()
      ensures scan.OpFor(table'.fids, u) == scan.OpFor(table.fids, u)
    {
      assert scan.Decide(u).DoEnter? ==> u in scan.Entering(done);
    }
  }

  lemma VisitLanding(scan: Scan, table: FidTable, table': FidTable, done: set<WorldId>, w: WorldId)
    requires w !in done && table'.Extends(table) && scan.Entering(done) <= table.fids.Keys
    ensures scan.LandingFor(table'.fids, done + {w}) ==
            if scan.Decide(w).DoEnter? || scan.Decide(w).DoUpdate?
            then scan.LandingFor(table.fids, done)[w := scan.Landed(table'.fids, w)]
            else scan.LandingFor(table.fids, done)
  {
    forall u | u in done && (scan.Decide(u).DoEnter? || scan.Decide(u).DoUpdate?)
      ensures scan.FidFor(table'.fids, u) == scan.FidFor(table.fids, u)
    {
      assert scan.Decide(u).DoEnter? ==> u in scan.Entering(done);
    }
  }

  /** A visit that sends an operation. */
  lemma VisitSending(hash: Hasher, scan: Scan, table: FidTable, table': FidTable, done: set<WorldId>, kind: OpKind, e: EntityFrame, acc: Acc)
    requires e.wid !in done && table'.Extends(table) && Visited(hash, scan, table, done, acc)
    requires scan.Decide(e.wid) == match kind case Enter => DoEnter case Update => DoUpdate case Leave => DoLeave
    requires kind == Enter ==> e.wid in table'.fids
    requires e.fid == scan.FidFor(table'.fids, e.wid)
    requires kind != Leave ==> scan.global[e.wid].hash == hash(e.entity)
    ensures Visited(hash, scan, table', done + {e.wid}, Push(hash, acc, kind, e).(
              landing := if kind == Leave then acc.landing else acc.landing[e.wid := scan.Landed(table'.fids, e.wid)],
              leaving := if kind == Leave then acc.leaving + {e.wid} else acc.leaving))
  {
    var w, m := e.wid, scan.OpsFor(table.fids, done);
    PushTells(hash, acc, kind, e, m);
    VisitOps(scan, table, table', done, w);
    VisitLanding(scan, table, table', done, w);
    assert scan.Leaving(done + {w}) == if kind == Leave then scan.Leaving(done) + {w} else scan.Leaving(done);
    assert scan.Held(done + {w}) == scan.Held(done);
  }

  /** A visit that sends nothing. */
  lemma VisitSilent(hash: Hasher, scan: Scan, table: FidTable, done: set<WorldId>, w: WorldId, acc: Acc)
    requires w !in done && Visited(hash, scan, table, done, acc) && !scan.Decide(w).Sends()
    ensures Visited(hash, scan, table, done + {w},
                    if scan.Decide(w) == Throttled then acc.(throttled := acc.throttled + {w}) else acc)
  {
    VisitOps(scan, table, table, done, w);
    VisitLanding(scan, table, table, done, w);
    assert scan.Leaving(done + {w}) == scan.Leaving(done);
    assert scan.Held(done + {w}) == if scan.Decide(w) == Throttled then scan.Held(done) + {w} else scan.Held(done);
  }

  /** Visits one visible WID. */
  method ProcessVisible(ghost hash: Hasher, scan: Scan, table: FidTable, acc: Acc, w: WorldId, ghost done: set<WorldId>)
    returns (table': FidTable, acc': Acc)
    requires HashesOk(hash, scan.global)
    requires w in scan.visible && w !in done && Visited(hash, scan, table, done, acc) && Carries(scan, acc)
    ensures table' == if scan.Decide(w) == DoEnter then table.With(w) else table
    ensures Visited(hash, scan, table', done + {w}, acc') && Carries(scan, acc')
  {
    table', acc' := table, acc;
    if w in scan.global {
      var state := scan.global[w];
      var frequency := state.projected.frequency;
      if w !in scan.acked {
        table' := table.With(w);
        var e := EntityFrame(w, table'.fids[w], state.projected);
        acc' := Acc(acc.enters + [e], acc.updates, acc.leaves, acc.ops + [SentOp(Enter, w, e.fid, state.hash)],
                    acc.landing[w := Tracked(e.fid, state.hash, frequency, scan.tick)], acc.leaving, acc.throttled);
        VisitSending(hash, scan, table, table', done, Enter, e, acc);
        return;
      }
      if scan.acked[w].hash != state.hash {
        if scan.TooEarly(w, frequency) {
          acc' := acc.(throttled := acc.throttled + {w});
        } else {
          var e := EntityFrame(w, scan.acked[w].fid, state.projected);
          acc' := Acc(acc.enters, acc.updates + [e], acc.leaves, acc.ops + [SentOp(Update, w, e.fid, state.hash)],
                      acc.landing[w := Tracked(e.fid, state.hash, frequency, scan.tick)], acc.leaving, acc.throttled);
          VisitSending(hash, scan, table, table, done, Update, e, acc);
          return;
        }
      }
    }
    VisitSilent(hash, scan, table, done, w, acc);
  }

  /** Visits one acknowledged WID that is not visible. */
  method PushLeave(ghost hash: Hasher, scan: Scan, ghost table: FidTable, acc: Acc, w: WorldId, ghost done: set<WorldId>)
    returns (acc': Acc)
    requires w in scan.acked && w !in scan.visible && w !in done && Visited(hash, scan, table, done, acc) && Carries(scan, acc)
    ensures Visited(hash, scan, table, done + {w}, acc') && Carries(scan, acc')
  {
    var leave := EntityLeave(w, scan.acked[w].fid);
    acc' := Acc(acc.enters, acc.updates, acc.leaves + [leave], acc.ops + [SentOp(Leave, w, leave.fid, 0)],
                acc.landing, acc.leaving + {w}, acc.throttled);
    VisitSending(hash, scan, table, table, done, Leave, EntityFrame(w, leave.fid, ProjectedEntity([], OnChange, 0)), acc);
  }

  /** The full scan: every visible WID in ascending order, then every acknowledged WID not visible. */
  method ScanAll(ghost hash: Hasher, scan: Scan, table: FidTable, visible: seq<WorldId>)
    returns (table': FidTable, acc: Acc)
    requires HashesOk(hash, scan.global) && Elements(visible) == scan.visible && Ascending(visible)
    ensures table' == FullScan(scan, table, visible).table
    ensures Visited(hash, scan, table', scan.All(), acc) && Carries(scan, acc)
  {
    table', acc := ScanVisible(hash, scan, table, visible);
    acc := ScanLeaves(hash, scan, table', acc);
    assert scan.Entering(scan.All()) == scan.Entering(scan.visible);
  }

  method ScanLeaves(ghost hash: Hasher, scan: Scan, ghost table: FidTable, acc: Acc) returns (acc': Acc)
    requires Visited(hash, scan, table, scan.visible, acc) && Carries(scan, acc)
    ensures Visited(hash, scan, table, scan.All(), acc') && Carries(scan, acc')
  {
    acc' := acc;
    var todo := scan.acked.Keys - scan.visible;
    ghost var done := scan.visible;
    while todo != {}
      invariant forall w :: w in todo <==> w in scan.acked && w !in done
      invariant scan.visible <= done <= scan.All()
      invariant Visited(hash, scan, table, done, acc') && Carries(scan, acc')
    {
      var w :| w in todo;
      acc' := PushLeave(hash, scan, table, acc', w, done);
      todo, done := todo - {w}, done + {w};
    }
    assert done == scan.All();
  }

  lemma PrefixStep(s: seq<WorldId>, i: nat)
    requires Ascending(s) && i < |s|
    ensures s[..i + 1][..i] == s[..i] && s[..i + 1][i] == s[i]
    ensures s[i] !in Elements(s[..i])
    ensures Elements(s[..i + 1]) == Elements(s[..i]) + {s[i]}
  {
  }

  method ScanVisible(ghost hash: Hasher, scan: Scan, table: FidTable, visible: seq<WorldId>)
    returns (table': FidTable, acc: Acc)
    requires HashesOk(hash, scan.global) && Elements(visible) == scan.visible && Ascending(visible)
    ensures table' == MapFids(table, visible, scan.Entering(scan.visible))
    ensures Visited(hash, scan, table', scan.visible, acc) && Carries(scan, acc)
  {
    table', acc := table, NO_ACC;
    ghost var need := scan.Entering(scan.visible);
    for i := 0 to |visible|
      invariant table' == MapFids(table, visible[..i], need)
      invariant Visited(hash, scan, table', Elements(visible[..i]), acc) && Carries(scan, acc)
    {
      PrefixStep(visible, i);
      table', acc := ProcessVisible(hash, scan, table', acc, visible[i], Elements(visible[..i]));
    }
    assert visible[..|visible|] == visible;
  }

  /** Visits one WID of unknown standing. */
  method VisitCandidate(ghost hash: Hasher, scan: Scan, table: FidTable, acc: Acc, w: WorldId, ghost done: set<WorldId>)
    returns (table': FidTable, acc': Acc)
    requires HashesOk(hash, scan.global) && w !in done && Visited(hash, scan, table, done, acc) && Carries(scan, acc)
    ensures table' == if scan.Decide(w) == DoEnter then table.With(w) else table
    ensures Visited(hash, scan, table', done + {w}, acc') && Carries(scan, acc')
  {
    if w in scan.visible {
      table', acc' := ProcessVisible(hash, scan, table, acc, w, done);
    } else if w in scan.acked {
      table' := table;
      acc' := PushLeave(hash, scan, table, acc, w, done);
    } else {
      table', acc' := table, acc;
      VisitSilent(hash, scan, table, done, w, acc);
    }
  }

  /** The cached scan: the candidates only, in ascending order. */
  method ScanCandidates(ghost hash: Hasher, scan: Scan, table: FidTable, candidates: seq<WorldId>)
    returns (table': FidTable, acc: Acc)
    requires HashesOk(hash, scan.global) && Ascending(candidates)
    ensures table' == ScanOver(scan, table, candidates, Elements(candidates)).table
    ensures Visited(hash, scan, table', Elements(candidates), acc) && Carries(scan, acc)
  {
    table', acc := table, NO_ACC;
    ghost var need := scan.Entering(Elements(candidates));
    for i := 0 to |candidates|
      invariant table' == MapFids(table, candidates[..i], need)
      invariant Visited(hash, scan, table', Elements(candidates[..i]), acc) && Carries(scan, acc)
    {
      PrefixStep(candidates, i);
      table', acc := VisitCandidate(hash, scan, table', acc, candidates[i], Elements(candidates[..i]));
    }
    assert candidates[..|candidates|] == candidates;
  }

  function InsertWid(s: seq<WorldId>, w: WorldId): (r: seq<WorldId>)
    ensures forall u :: u in r <==> u in s || u == w
  {
    if s == [] then [w]
    else if w < s[0] then [w] + s
    else if w == s[0] then s
    else
      assert s == [s[0]] + s[1..];
      [s[0]] + InsertWid(s[1..], w)
  }

  lemma {:induction false} InsertWidAscending(s: seq<WorldId>, w: WorldId)
    requires Ascending(s)
    ensures Ascending(InsertWid(s, w))
  {
    if s != [] && w > s[0] {
      InsertWidAscending(s[1..], w);
      var rest := InsertWid(s[1..], w);
      forall i | 0 <= i < |rest|
        ensures s[0] < rest[i]
      {
        assert rest[i] in rest;
      }
    }
  }

  /** The candidate list of a cached build: sorted, without duplicates. */
  method CandidateList(counts: map<WorldId, nat>, throttled: set<WorldId>, changed: seq<WorldId>, visible: seq<WorldId>)
    returns (candidates: seq<WorldId>)
    requires Ascending(changed) && Ascending(visible)
    ensures Ascending(candidates)
    ensures Elements(candidates) == Candidates(counts, throttled, changed, Elements(visible))
  {
    candidates := [];
    var todo := counts.Keys + throttled;
    while todo != {}
      invariant todo <= counts.Keys + throttled
      invariant Ascending(candidates) && Elements(candidates) == counts.Keys + throttled - todo
    {
      var w :| w in todo;
      InsertWidAscending(candidates, w);
      assert Elements(InsertWid(candidates, w)) == Elements(candidates) + {w};
      candidates := InsertWid(candidates, w);
      todo := todo - {w};
    }
    candidates := MergeInto(candidates, changed, visible);
  }

  /** Adds the common elements of two ascending lists, walking both at once. */
  method MergeInto(candidates: seq<WorldId>, changed: seq<WorldId>, visible: seq<WorldId>) returns (r: seq<WorldId>)
    requires Ascending(candidates) && Ascending(changed) && Ascending(visible)
    ensures Ascending(r) && Elements(r) == Elements(candidates) + Elements(changed) * Elements(visible)
  {
    r := candidates;
    var i, j := 0, 0;
    while i < |changed| && j < |visible|
      invariant 0 <= i <= |changed| && 0 <= j <= |visible|
      invariant forall w | w in changed[..i] && w in visible :: w in r
      invariant forall w | w in visible[..j] && w in changed :: w in r
      invariant forall w | w in candidates :: w in r
      invariant forall w | w in r :: w in candidates || (w in changed && w in visible)
      invariant Ascending(r)
    {
      if changed[i] < visible[j] {
        AbsentBelow(visible, j, changed[i]);
        i := i + 1;
      } else if visible[j] < changed[i] {
        AbsentBelow(changed, i, visible[j]);
        j := j + 1;
      } else {
        InsertWidAscending(r, changed[i]);
        r := InsertWid(r, changed[i]);
        i, j := i + 1, j + 1;
      }
    }
    assert changed[..|changed|] == changed && visible[..|visible|] == visible;
  }

  /** In an ascending list, a WID below the element at `j` can only stand before it. */
  lemma AbsentBelow(s: seq<WorldId>, j: nat, w: WorldId)
    requires Ascending(s) && j < |s| && w < s[j]
    ensures w in s ==> w in s[..j]
  {
    if w in s {
      var k :| 0 <= k < |s| && s[k] == w;
      assert k < j;
      assert s[..j][k] == w;
    }
  }

  /** Update order under a quota: higher priority first, then lower FID. */
  predicate Urgent(a: EntityFrame, b: EntityFrame) {
    a.entity.priority > b.entity.priority || (a.entity.priority == b.entity.priority && a.fid <= b.fid)
  }

  predicate ByWid(a: SentOp, b: SentOp) { a.wid <= b.wid }

  predicate ByEntityWid(a: EntityFrame, b: EntityFrame) { a.wid <= b.wid }

  predicate ByFid(a: EntityFrame, b: EntityFrame) { a.fid <= b.fid }

  predicate ByLeaveFid(a: EntityLeave, b: EntityLeave) { a.fid <= b.fid }
}
