/** The update quota of a delta frame: the least urgent updates are cut from the frame, and their
    operations from the record. */
module TrimUpdates {
  import opened StreamTypes
  import opened FrameScan
  import opened DeltaBuild
  import opened FrameSpec
  import opened Replica
  import opened Sorting

  predicate DistinctFids(acked: map<WorldId, Tracked>) {
    forall u, v | u in acked && v in acked && u != v :: acked[u].fid != acked[v].fid
  }

  /** `updates` are the updates of the WIDs in `s`, each once. */
  ghost predicate UpdatesOf(scan: Scan, updates: seq<EntityFrame>, s: set<WorldId>) {
    && s <= scan.acked.Keys && s <= scan.global.Keys
    && (forall i | 0 <= i < |updates| :: updates[i].wid in s && updates[i] == UpdateOf(scan, updates[i].wid))
    && (forall i, j | 0 <= i < j < |updates| :: updates[i].wid != updates[j].wid)
    && (forall w | w in s :: exists i :: 0 <= i < |updates| && updates[i].wid == w)
  }

  lemma {:induction false} UpdateOccursOnce(updates: seq<EntityFrame>, i: nat)
    requires forall i, j | 0 <= i < j < |updates| :: updates[i].wid != updates[j].wid
    requires i < |updates|
    ensures multiset(updates)[updates[i]] == 1
  {
    var l, r := updates[..i], updates[i + 1..];
    assert updates == l + ([updates[i]] + r);
    assert updates[i] !in l && updates[i] !in r;
  }

  lemma UpdatesPermuted(scan: Scan, a: seq<EntityFrame>, b: seq<EntityFrame>, s: set<WorldId>)
    requires UpdatesOf(scan, a, s) && multiset(a) == multiset(b)
    ensures UpdatesOf(scan, b, s)
  {
    forall i | 0 <= i < |b|
      ensures b[i].wid in s && b[i] == UpdateOf(scan, b[i].wid)
    {
      assert b[i] in multiset(a);
    }
    forall i, j | 0 <= i < j < |b|
      ensures b[i].wid != b[j].wid
    {
      if b[i].wid == b[j].wid {
        assert b[i] in multiset(a) && b[j] in multiset(a);
        OccursTwice(b, i, j);
        var k :| 0 <= k < |a| && a[k] == b[i];
        UpdateOccursOnce(a, k);
        assert false;
      }
    }
    forall w | w in s
      ensures exists i :: 0 <= i < |b| && b[i].wid == w
    {
      var k :| 0 <= k < |a| && a[k].wid == w;
      assert a[k] in multiset(b);
    }
  }

  /** A list of updates tells the update operations of its WIDs. */
  lemma UpdatesTell(hash: Hasher, scan: Scan, updates: seq<EntityFrame>, s: set<WorldId>, m: Ops)
    requires HashesOk(hash, scan.global) && UpdatesOf(scan, updates, s)
    requires m.Keys == s && forall w | w in s :: m[w] == SentOp(Update, w, scan.acked[w].fid, scan.global[w].hash)
    ensures Lists(EntityOps(hash, Update, updates), m)
  {
    var ops := EntityOps(hash, Update, updates);
    OpMapContents(ops);
    forall w
      ensures w in OpMap(ops) <==> w in s
    {
      if w in s {
        var i :| 0 <= i < |updates| && updates[i].wid == w;
        assert ops[i].wid == w;
      }
    }
    forall w | w in s
      ensures OpMap(ops)[w] == m[w]
    {
      var i :| 0 <= i < |ops| && ops[i].wid == w;
      assert updates[i] == UpdateOf(scan, w);
    }
  }

  /** The update list of a finished scan holds each update once. */
  lemma ToldUpdates(hash: Hasher, scan: Scan, fids: map<WorldId, FeatureId>, done: set<WorldId>, updates: seq<EntityFrame>)
    requires Projections(scan, updates)
    requires Lists(EntityOps(hash, Update, updates), OfKind(scan.OpsFor(fids, done), Update))
    ensures UpdatesOf(scan, updates, OfKind(scan.OpsFor(fids, done), Update).Keys)
  {
    var ops, m := EntityOps(hash, Update, updates), OfKind(scan.OpsFor(fids, done), Update);
    OpMapContents(ops);
    forall w | w in m
      ensures scan.Decide(w) == DoUpdate && m[w].fid == scan.acked[w].fid
    {
    }
    forall i | 0 <= i < |updates|
      ensures updates[i].wid in m && updates[i] == UpdateOf(scan, updates[i].wid)
    {
      assert ops[i].wid in OpMap(ops) && m[ops[i].wid] == ops[i];
      assert updates[i] in updates;
    }
    forall i, j | 0 <= i < j < |updates|
      ensures updates[i].wid != updates[j].wid
    {
      assert ops[i].wid != ops[j].wid;
    }
    forall w | w in m
      ensures exists i :: 0 <= i < |updates| && updates[i].wid == w
    {
      var i :| 0 <= i < |ops| && ops[i].wid == w;
      assert updates[i].wid == w;
    }
  }

  /** Keeps the `quota` most urgent updates. */
  method KeepUrgent(scan: Scan, updates: seq<EntityFrame>, quota: nat, ghost s: set<WorldId>)
    returns (kept: seq<EntityFrame>, ghost trimmed: set<WorldId>)
    requires UpdatesOf(scan, updates, s) && quota < |updates|
    ensures |kept| == quota && trimmed <= s && UpdatesOf(scan, kept, s - trimmed)
    ensures forall i, w | 0 <= i < |kept| && w in trimmed :: Urgent(kept[i], UpdateOf(scan, w))
  {
    var sorted := SortBy(Urgent, updates);
    SortBySorted(Urgent, updates);
    assert |sorted| == |multiset(sorted)| == |updates|;
    UpdatesPermuted(scan, updates, sorted, s);
    kept := sorted[..quota];
    trimmed := set w | w in s && forall i | 0 <= i < quota :: sorted[i].wid != w;
    MostUrgent(scan, sorted, quota, s, trimmed);
  }

  lemma MostUrgent(scan: Scan, sorted: seq<EntityFrame>, quota: nat, s: set<WorldId>, trimmed: set<WorldId>)
    requires UpdatesOf(scan, sorted, s) && quota <= |sorted| && Sorted(Urgent, sorted)
    requires trimmed == set w | w in s && forall i | 0 <= i < quota :: sorted[i].wid != w
    ensures UpdatesOf(scan, sorted[..quota], s - trimmed)
    ensures forall i, w | 0 <= i < quota && w in trimmed :: Urgent(sorted[i], UpdateOf(scan, w))
  {
    var kept := sorted[..quota];
    forall w | w in s - trimmed
      ensures exists i :: 0 <= i < |kept| && kept[i].wid == w
    {
      var i :| 0 <= i < quota && sorted[i].wid == w;
      assert kept[i].wid == w;
    }
    forall i, w | 0 <= i < quota && w in trimmed
      ensures Urgent(sorted[i], UpdateOf(scan, w))
    {
      var j :| 0 <= j < |sorted| && sorted[j].wid == w;
      assert j >= quota;
      assert Urgent(sorted[i], sorted[j]);
    }
  }

  /** Erases the operations of the cut updates; their WIDs fall back to the acknowledged entry. */
  method EraseTrimmed(scan: Scan, ops: seq<SentOp>, landing: map<WorldId, Tracked>, kept: seq<EntityFrame>,
                      ghost s: set<WorldId>, ghost trimmed: set<WorldId>)
    returns (ops': seq<SentOp>, landing': map<WorldId, Tracked>)
    requires DistinctFids(scan.acked) && trimmed <= s && s <= scan.acked.Keys && UpdatesOf(scan, kept, s - trimmed)
    requires DistinctWids(ops)
    requires forall i | 0 <= i < |ops| :: ops[i].kind == Update <==> ops[i].wid in s
    requires forall i | 0 <= i < |ops| && ops[i].kind == Update :: ops[i].fid == scan.acked[ops[i].wid].fid
    requires forall w | w in trimmed :: exists i :: 0 <= i < |ops| && ops[i].wid == w
    ensures Lists(ops', OpMap(ops) - trimmed)
    ensures landing' == landing + FallBack(scan.acked, trimmed)
  {
    var keptFids := set i | 0 <= i < |kept| :: kept[i].fid;
    ops', landing' := [], landing;
    for i := 0 to |ops|
      invariant Lists(ops', OpMap(ops[..i]) - trimmed)
      invariant landing' == landing + FallBack(scan.acked, trimmed * OpMap(ops[..i]).Keys)
    {
      var op := ops[i];
      ErasePrefix(ops, i, trimmed);
      KeptFid(scan, kept, s, trimmed, op);
      FallBackStep(scan, landing, trimmed, OpMap(ops[..i]).Keys, op.wid);
      if op.kind == Update && op.fid !in keptFids {
        landing' := landing'[op.wid := scan.acked[op.wid]];
      } else {
        ListsAppend(ops', OpMap(ops[..i]) - trimmed, op);
        ops' := ops' + [op];
      }
    }
    assert ops[..|ops|] == ops;
    OpMapContents(ops);
    assert trimmed * OpMap(ops).Keys == trimmed;
  }


  lemma FallBackStep(scan: Scan, landing: map<WorldId, Tracked>, trimmed: set<WorldId>, keys: set<WorldId>, w: WorldId)
    requires trimmed <= scan.acked.Keys
    ensures landing + FallBack(scan.acked, trimmed * (keys + {w})) ==
            if w in trimmed then (landing + FallBack(scan.acked, trimmed * keys))[w := scan.acked[w]]
            else landing + FallBack(scan.acked, trimmed * keys)
  {
    assert w !in trimmed ==> trimmed * (keys + {w}) == trimmed * keys;
  }

  lemma ErasePrefix(ops: seq<SentOp>, i: nat, trimmed: set<WorldId>)
    requires DistinctWids(ops) && i < |ops|
    ensures OpMap(ops[..i + 1]) == OpMap(ops[..i])[ops[i].wid := ops[i]]
    ensures OpMap(ops[..i + 1]).Keys == OpMap(ops[..i]).Keys + {ops[i].wid}
    ensures ops[i].wid !in OpMap(ops[..i])
    ensures OpMap(ops[..i + 1]) - trimmed ==
            if ops[i].wid in trimmed then OpMap(ops[..i]) - trimmed else (OpMap(ops[..i]) - trimmed)[ops[i].wid := ops[i]]
  {
    assert ops[..i + 1][..i] == ops[..i];
    OpMapContents(ops[..i]);
  }

  /** With distinct FIDs, looking an update up by FID finds it exactly if its WID was kept. */
  lemma KeptFid(scan: Scan, kept: seq<EntityFrame>, s: set<WorldId>, trimmed: set<WorldId>, op: SentOp)
    requires DistinctFids(scan.acked) && trimmed <= s && UpdatesOf(scan, kept, s - trimmed)
    requires op.kind == Update ==> op.wid in s && s <= scan.acked.Keys && op.fid == scan.acked[op.wid].fid
    ensures op.kind == Update ==> (op.wid in trimmed <==> forall i | 0 <= i < |kept| :: kept[i].fid != op.fid)
  {
    if op.kind == Update && op.wid !in trimmed {
      assert op.wid in s - trimmed;
      var i :| 0 <= i < |kept| && kept[i].wid == op.wid;
      assert kept[i].fid == op.fid;
    }
  }

  lemma {:induction false} UpdateCount(scan: Scan, updates: seq<EntityFrame>, s: set<WorldId>)
    requires UpdatesOf(scan, updates, s)
    ensures |s| == |updates|
  {
    if updates == [] {
      assert s == {};
    } else {
      var init, last := updates[..|updates| - 1], updates[|updates| - 1];
      forall w | w in s - {last.wid}
        ensures exists i :: 0 <= i < |init| && init[i].wid == w
      {
        var i :| 0 <= i < |updates| && updates[i].wid == w;
        assert init[i].wid == w;
      }
      UpdateCount(scan, init, s - {last.wid});
    }
  }

  /** The operations of a scan, in any order, are as the cut expects them. */
  lemma TrimReady(scan: Scan, fids: map<WorldId, FeatureId>, done: set<WorldId>, ops: seq<SentOp>, s: set<WorldId>, trimmed: set<WorldId>)
    requires Lists(ops, scan.OpsFor(fids, done)) && s == OfKind(scan.OpsFor(fids, done), Update).Keys && trimmed <= s
    ensures forall i | 0 <= i < |ops| :: ops[i].kind == Update <==> ops[i].wid in s
    ensures forall i | 0 <= i < |ops| && ops[i].kind == Update :: ops[i].wid in scan.acked && ops[i].fid == scan.acked[ops[i].wid].fid
    ensures forall w | w in trimmed :: exists i :: 0 <= i < |ops| && ops[i].wid == w
  {
    OpMapContents(ops);
    forall i | 0 <= i < |ops|
      ensures ops[i].kind == Update <==> ops[i].wid in s
      ensures ops[i].kind == Update ==> ops[i].wid in scan.acked && ops[i].fid == scan.acked[ops[i].wid].fid
    {
      assert ops[i].wid in OpMap(ops) && OpMap(ops)[ops[i].wid] == ops[i];
    }
  }

  /** The kept updates tell exactly the update operations left after the cut. */
  lemma TrimmedTell(hash: Hasher, scan: Scan, fids: map<WorldId, FeatureId>, done: set<WorldId>, kept: seq<EntityFrame>,
                    s: set<WorldId>, trimmed: set<WorldId>)
    requires HashesOk(hash, scan.global) && s == OfKind(scan.OpsFor(fids, done), Update).Keys
    requires trimmed <= s && UpdatesOf(scan, kept, s - trimmed)
    ensures Lists(EntityOps(hash, Update, kept), OfKind(scan.OpsFor(fids, done) - trimmed, Update))
  {
    var m := OfKind(scan.OpsFor(fids, done) - trimmed, Update);
    assert m.Keys == s - trimmed;
    UpdatesTell(hash, scan, kept, s - trimmed, m);
  }

  lemma TrimmedUrgent(scan: Scan, kept: seq<EntityFrame>, s: set<WorldId>, trimmed: set<WorldId>)
    requires trimmed <= s && s <= scan.acked.Keys && s <= scan.global.Keys && UpdatesOf(scan, kept, s - trimmed)
    requires forall i, w | 0 <= i < |kept| && w in trimmed :: Urgent(kept[i], UpdateOf(scan, w))
    ensures forall k, d | k in s - trimmed && d in trimmed ::
              Urgent(UpdateOf(scan, k), UpdateOf(scan, d))
  {
    forall k, d | k in s - trimmed && d in trimmed
      ensures Urgent(UpdateOf(scan, k), UpdateOf(scan, d))
    {
      var i :| 0 <= i < |kept| && kept[i].wid == k;
      assert kept[i] == UpdateOf(scan, k);
      assert Urgent(kept[i], UpdateOf(scan, d));
    }
  }
}
