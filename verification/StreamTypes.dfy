/** Data exchanged between the projection engine, one connection and its client, and the
    algebra of views: how a list of sent operations changes a view.  */
module StreamTypes {

  type WorldId = nat
  type FeatureId = nat

  datatype FrequencyClass = OnChange | Slow | Fast

  /** The client-visible content of an entity. The FID is not part of it: frames carry it beside
      the entity, and neither hash depends on it. */
  datatype ProjectedEntity = ProjectedEntity(canonical: seq<bv8>, frequency: FrequencyClass, priority: nat)

  /** The stable entity hash, computed alike by the server and the client; its value is a parameter. */
  type Hasher = ProjectedEntity -> nat

  datatype EntityState = EntityState(projected: ProjectedEntity, hash: nat)

  /** What a client holds for one WID, and what two views are compared on. */
  datatype Entry = Entry(fid: FeatureId, hash: nat)

  datatype Tracked = Tracked(fid: FeatureId, hash: nat, frequency: FrequencyClass, lastSent: nat)

  datatype OpKind = Enter | Update | Leave

  datatype SentOp = SentOp(kind: OpKind, wid: WorldId, fid: FeatureId, hash: nat)

  datatype SentRecord = SentRecord(snapshotId: nat, ops: seq<SentOp>, bytes: nat)

  datatype EntityFrame = EntityFrame(wid: WorldId, fid: FeatureId, entity: ProjectedEntity)

  datatype EntityLeave = EntityLeave(wid: WorldId, fid: FeatureId)

  datatype StateFrame =
    | Keyframe(snapshotId: nat, baseline: nat, entities: seq<EntityFrame>)
    | Delta(snapshotId: nat, baseline: nat, enters: seq<EntityFrame>, updates: seq<EntityFrame>, leaves: seq<EntityLeave>)

  type View = map<WorldId, Entry>
  type Ops = map<WorldId, SentOp>

  ghost predicate Tabulates<K, V>(m: map<K, V>, s: set<K>, f: K -> V) {
    m.Keys == s && forall k | k in s :: m[k] == f(k)
  }

  /** The table of `f` over `s`. */
  ghost function Tabulate<K, V>(s: set<K>, f: K -> V): (m: map<K, V>)
    ensures m.Keys == s && forall k | k in s :: m[k] == f(k)
  {
    assert Tabulates(map k | k in s :: f(k), s, f);
    var m :| Tabulates(m, s, f);
    m
  }

  ghost function ViewOf(m: map<WorldId, Tracked>): View {
    Tabulate(m.Keys, w => if w in m then Entry(m[w].fid, m[w].hash) else Entry(0, 0))
  }

  /** One operation on a view. */
  function ApplyOp(view: View, op: SentOp): View {
    if op.kind == Leave then view - {op.wid} else view[op.wid := Entry(op.fid, op.hash)]
  }

  function ApplyOps(view: View, ops: seq<SentOp>): View {
    if ops == [] then view else ApplyOp(ApplyOps(view, ops[..|ops| - 1]), ops[|ops| - 1])
  }

  /** The last operation of each WID. */
  function OpMap(ops: seq<SentOp>): Ops {
    if ops == [] then map[] else OpMap(ops[..|ops| - 1])[ops[|ops| - 1].wid := ops[|ops| - 1]]
  }

  /** A view after the operations of `m`, all WIDs at once. */
  ghost function Override(view: View, m: Ops): View {
    Tabulate((set w | w in view.Keys + m.Keys && !(w in m && m[w].kind == Leave)),
             w => if w in m then Entry(m[w].fid, m[w].hash) else if w in view then view[w] else Entry(0, 0))
  }

  predicate DistinctWids(ops: seq<SentOp>) {
    forall i, j | 0 <= i < j < |ops| :: ops[i].wid != ops[j].wid
  }

  /** Every operation is filed under its own WID. */
  predicate Keyed(m: Ops) {
    forall w | w in m :: m[w].wid == w
  }

  /** `ops` is `m` written out in some order. */
  predicate Lists(ops: seq<SentOp>, m: Ops) {
    DistinctWids(ops) && OpMap(ops) == m
  }

  lemma OpMapAppend(ops: seq<SentOp>, op: SentOp)
    ensures OpMap(ops + [op]) == OpMap(ops)[op.wid := op]
    ensures forall view :: ApplyOps(view, ops + [op]) == ApplyOp(ApplyOps(view, ops), op)
  {
    assert (ops + [op])[..|ops|] == ops;
  }

  lemma {:induction false} OpMapContents(ops: seq<SentOp>)
    ensures Keyed(OpMap(ops))
    ensures forall w :: w in OpMap(ops) <==> exists i :: 0 <= i < |ops| && ops[i].wid == w
    ensures DistinctWids(ops) ==> forall i | 0 <= i < |ops| :: OpMap(ops)[ops[i].wid] == ops[i]
  {
    if ops != [] {
      var init, last := ops[..|ops| - 1], ops[|ops| - 1];
      OpMapContents(init);
      forall w
        ensures w in OpMap(ops) <==> exists i :: 0 <= i < |ops| && ops[i].wid == w
      {
        if w in OpMap(ops) {
          if w == last.wid {
            assert ops[|ops| - 1].wid == w;
          } else {
            var i :| 0 <= i < |init| && init[i].wid == w;
            assert ops[i].wid == w;
          }
        }
        if i :| 0 <= i < |ops| && ops[i].wid == w {
          if i < |init| {
            assert init[i].wid == w;
          }
        }
      }
      if DistinctWids(ops) {
        forall i | 0 <= i < |ops|
          ensures OpMap(ops)[ops[i].wid] == ops[i]
        {
          if i < |init| {
            assert init[i] == ops[i];
          }
        }
      }
    }
  }

  /** Replaying a list one operation at a time equals overriding with the last operation of each WID. */
  lemma {:induction false} ApplyOpsIsOverride(view: View, ops: seq<SentOp>)
    ensures ApplyOps(view, ops) == Override(view, OpMap(ops))
  {
    if ops != [] {
      var init, last := ops[..|ops| - 1], ops[|ops| - 1];
      ApplyOpsIsOverride(view, init);
    }
  }

  lemma OverrideOne(view: View, m: Ops, op: SentOp)
    ensures Override(view, m[op.wid := op]) == ApplyOp(Override(view, m), op)
  {
  }

  /** Overriding twice is overriding with the merged operations, the later ones winning. */
  lemma OverrideTwice(view: View, a: Ops, b: Ops)
    ensures Override(Override(view, a), b) == Override(view, a + b)
  {
    var l, r := Override(Override(view, a), b), Override(view, a + b);
    forall w
      ensures w in l <==> w in r
      ensures w in l ==> l[w] == r[w]
    {
    }
  }

  /** All WIDs of a list, with multiplicity. */
  function Wids(ops: seq<SentOp>): multiset<WorldId> {
    if ops == [] then multiset{} else Wids(ops[..|ops| - 1]) + multiset{ops[|ops| - 1].wid}
  }

  lemma {:induction false} WidsAreOpKeys(ops: seq<SentOp>)
    ensures forall w :: w in Wids(ops) <==> w in OpMap(ops)
  {
    if ops != [] {
      WidsAreOpKeys(ops[..|ops| - 1]);
    }
  }

  /** The merged operations of a list of records, later records winning. */
  function RecordOps(records: seq<SentRecord>): Ops {
    if records == [] then map[] else RecordOps(records[..|records| - 1]) + OpMap(records[|records| - 1].ops)
  }

  function RecordWids(records: seq<SentRecord>): multiset<WorldId> {
    if records == [] then multiset{} else RecordWids(records[..|records| - 1]) + Wids(records[|records| - 1].ops)
  }

  lemma {:induction false} RecordWidsAreOpKeys(records: seq<SentRecord>)
    ensures forall w :: w in RecordWids(records) <==> w in RecordOps(records)
  {
    if records != [] {
      RecordWidsAreOpKeys(records[..|records| - 1]);
      WidsAreOpKeys(records[|records| - 1].ops);
    }
  }

  lemma {:induction false} RecordOpsConcat(a: seq<SentRecord>, b: seq<SentRecord>)
    ensures RecordOps(a + b) == RecordOps(a) + RecordOps(b)
  {
    if b == [] {
      assert a + b == a;
    } else {
      var init, last := b[..|b| - 1], b[|b| - 1];
      assert (a + b)[..|a + b| - 1] == a + init;
      calc {
        RecordOps(a + b);
        RecordOps(a + init) + OpMap(last.ops);
        { RecordOpsConcat(a, init); }
        (RecordOps(a) + RecordOps(init)) + OpMap(last.ops);
        { MergeAssociative(RecordOps(a), RecordOps(init), OpMap(last.ops)); }
        RecordOps(a) + RecordOps(b);
      }
    }
  }

  lemma {:induction false} RecordWidsConcat(a: seq<SentRecord>, b: seq<SentRecord>)
    ensures RecordWids(a + b) == RecordWids(a) + RecordWids(b)
  {
    if b == [] {
      assert a + b == a;
    } else {
      var init, last := b[..|b| - 1], b[|b| - 1];
      assert (a + b)[..|a + b| - 1] == a + init;
      RecordWidsConcat(a, init);
    }
  }

  lemma MergeAssociative(x: Ops, y: Ops, z: Ops)
    ensures (x + y) + z == x + (y + z)
  {
  }

  lemma {:induction false} RecordOpsKeyed(records: seq<SentRecord>)
    ensures Keyed(RecordOps(records))
  {
    if records != [] {
      RecordOpsKeyed(records[..|records| - 1]);
      OpMapContents(records[|records| - 1].ops);
    }
  }

  lemma SingleOp(op: SentOp)
    ensures OpMap([op]) == map[op.wid := op] && Wids([op]) == multiset{op.wid}
    ensures Lists([op], map[op.wid := op])
  {
    assert [op][..0] == [];
  }
}
