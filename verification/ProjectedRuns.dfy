/** Why the tick's shortcuts are safe: what a run of world operations does to versions, revisions and the erase counter. */
module ProjectedRuns {
  import opened Integers
  import opened StreamTypes
  import opened WorldModel
  import opened WorldStorage
  import opened GlobalView

  /** The operations that leave their mark on an object; an update leaves that to its mutation, and a restore brings
      back whatever it was given. */
  predicate Marking(op: WorldOp) {
    !op.DoUpdate? && !op.DoRestore?
  }

  predicate AllMarking(ops: seq<WorldOp>) {
    forall i | 0 <= i < |ops| :: Marking(ops[i])
  }

  /** Objects are stored under their own identifiers, which are set, and no revision is ahead of the counter. */
  predicate Sane(w: WorldValue) {
    w.eraseRevision < U64
    && forall id | id in w.objects :: id > 0 && w.objects[id].id == id && 0 < w.objects[id].revision <= w.nextRevision && w.objects[id].version < U64
  }

  /** The operation gives the object stored under `id` a new version. */
  predicate Bumps(w: WorldValue, op: WorldOp, id: nat) {
    id in w.objects &&
    match op
    case DoSet(target, _, _) => target == id && !w.objects[id].lifecycle.Retired?
    case DoRelate(source, relation) => source == id && relation.target in w.objects && relation.kind != []
    case _ => false
  }

  function BumpCount(w: WorldValue, ops: seq<WorldOp>, id: nat): nat {
    if ops == [] then 0
    else BumpCount(w, ops[..|ops| - 1], id) + if Bumps(MeantAll(w, ops[..|ops| - 1]), ops[|ops| - 1], id) then 1 else 0
  }

  function EraseCount(w: WorldValue, ops: seq<WorldOp>): nat {
    if ops == [] then 0
    else
      var op := ops[|ops| - 1];
      EraseCount(w, ops[..|ops| - 1]) + if op.DoErase? && op.id in MeantAll(w, ops[..|ops| - 1]).objects then 1 else 0
  }

  /** What is stored under `id` is new since `w`, or it is what `w` had with some changes counted in its version. */
  predicate Traced(w: WorldValue, now: WorldValue, id: nat, bumps: nat) {
    id in now.objects ==>
      || now.objects[id].revision > w.nextRevision
      || (&& id in w.objects && now.objects[id].revision == w.objects[id].revision
          && now.objects[id].version == (w.objects[id].version + bumps) % U64
          && (bumps == 0 ==> now.objects[id] == w.objects[id]))
  }

  lemma StepSane(w: WorldValue, op: WorldOp)
    requires Sane(w) && Marking(op) && w.nextRevision + 1 < U64
    requires op.DoInsert? ==> op.o.version < U64
    ensures Sane(Meant(w, op)) && w.nextRevision <= Meant(w, op).nextRevision <= w.nextRevision + 1
  {
  }

  lemma StepTraced(w: WorldValue, now: WorldValue, op: WorldOp, id: nat, bumps: nat)
    requires Sane(now) && w.nextRevision <= now.nextRevision && now.nextRevision + 1 < U64 && Marking(op) && Traced(w, now, id, bumps)
    requires id in w.objects ==> w.objects[id].version < U64
    ensures Traced(w, Meant(now, op), id, bumps + if Bumps(now, op, id) then 1 else 0)
  {
    if id in now.objects && now.objects[id].revision <= w.nextRevision && Bumps(now, op, id) {
      BumpedAgain(w.objects[id].version, bumps);
    }
  }

  lemma BumpedAgain(version: nat, bumps: nat)
    ensures Bump((version + bumps) % U64) == (version + (bumps + 1)) % U64
  {
  }

  lemma StepErases(w: WorldValue, now: WorldValue, op: WorldOp, count: nat)
    requires Marking(op) && now.eraseRevision == (w.eraseRevision + count) % U64 && (count == 0 ==> w.objects.Keys <= now.objects.Keys)
    ensures var more := if op.DoErase? && op.id in now.objects then 1 else 0;
            && Meant(now, op).eraseRevision == (w.eraseRevision + (count + more)) % U64
            && (count + more == 0 ==> w.objects.Keys <= Meant(now, op).objects.Keys)
  {
    BumpedAgain(w.eraseRevision, count);
  }

  predicate VersionsInRange(ops: seq<WorldOp>) {
    forall i | 0 <= i < |ops| && ops[i].DoInsert? :: ops[i].o.version < U64
  }

  /** In every run of marking operations: changes are counted in versions, new objects get new revisions, and erasures
      are counted. */
  lemma {:induction false} RunTraced(w: WorldValue, ops: seq<WorldOp>, id: nat)
    requires Sane(w) && AllMarking(ops) && VersionsInRange(ops) && w.nextRevision + |ops| < U64
    ensures var now := MeantAll(w, ops);
            && Sane(now) && w.nextRevision <= now.nextRevision <= w.nextRevision + |ops|
            && Traced(w, now, id, BumpCount(w, ops, id)) && BumpCount(w, ops, id) <= |ops|
            && now.eraseRevision == (w.eraseRevision + EraseCount(w, ops)) % U64 && EraseCount(w, ops) <= |ops|
            && (EraseCount(w, ops) == 0 ==> w.objects.Keys <= now.objects.Keys)
  {
    if ops != [] {
      var init, op := ops[..|ops| - 1], ops[|ops| - 1];
      RunTraced(w, init, id);
      var now := MeantAll(w, init);
      StepSane(now, op);
      StepTraced(w, now, op, id, BumpCount(w, init, id));
      StepErases(w, now, op, EraseCount(w, init));
    }
  }

  lemma Wrapped(start: nat, count: nat)
    requires start < U64 && count < U64 && (start + count) % U64 == start
    ensures count == 0
  {
  }

  lemma SameMarks(w: WorldValue, ops: seq<WorldOp>, id: nat)
    requires Sane(w) && AllMarking(ops) && VersionsInRange(ops) && w.nextRevision + |ops| < U64
    requires var now := MeantAll(w, ops);
             && id in w.objects && id in now.objects && now.objects[id].revision == w.objects[id].revision
             && now.objects[id].version == w.objects[id].version
    ensures MeantAll(w, ops).objects[id] == w.objects[id]
  {
    RunTraced(w, ops, id);
    var bumps := BumpCount(w, ops, id);
    assert w.objects[id].revision <= w.nextRevision;
    Wrapped(w.objects[id].version, bumps);
  }

  lemma NoErasure(w: WorldValue, ops: seq<WorldOp>)
    requires Sane(w) && AllMarking(ops) && VersionsInRange(ops) && w.nextRevision + |ops| < U64
    requires MeantAll(w, ops).eraseRevision == w.eraseRevision
    ensures w.objects.Keys <= MeantAll(w, ops).objects.Keys
  {
    RunTraced(w, ops, 0);
    Wrapped(w.eraseRevision, EraseCount(w, ops));
  }

  /** After any run of marking operations, an object with the same revision and version is the same object, and if the
      erase counter is the same, nothing is gone. */
  lemma RunsAreTold(w: WorldValue, ops: seq<WorldOp>)
    requires Sane(w) && AllMarking(ops) && VersionsInRange(ops) && w.nextRevision + |ops| < U64
    ensures var now := MeantAll(w, ops);
            && (forall id | id in w.objects && id in now.objects && now.objects[id].revision == w.objects[id].revision
                            && now.objects[id].version == w.objects[id].version :: now.objects[id] == w.objects[id])
            && (now.eraseRevision == w.eraseRevision ==> w.objects.Keys <= now.objects.Keys)
  {
    var now := MeantAll(w, ops);
    forall id | id in w.objects && id in now.objects && now.objects[id].revision == w.objects[id].revision
                && now.objects[id].version == w.objects[id].version
      ensures now.objects[id] == w.objects[id]
    {
      SameMarks(w, ops, id);
    }
    if now.eraseRevision == w.eraseRevision {
      NoErasure(w, ops);
    }
  }

  /** Every entity of the world, projected as it is, and nothing else. */
  predicate Mirrors(policy: Policy, global: Global, objects: map<WorldId, Object>) {
    global.Keys == objects.Keys && forall id | id in objects :: global[id] == Projection(policy, objects[id])
  }

  lemma MirrorIsCoherent(policy: Policy, place: ProjectedEntity -> Place, global: Global, objects: map<WorldId, Object>)
    requires Mirrors(policy, global, objects) && forall o :: place(policy.project(o)) == PlaceOf(o)
    ensures Coherent(policy, global) && Placed(place, global) && Exact(policy, global, objects)
  {
  }

  /** From tick to tick: whatever marking operations the world has seen since the last tick, and whether or not the policy
      has changed under a new version, the next tick leaves the projection of the whole world. */
  lemma TicksMirror(before: Policy, policy: Policy, place: ProjectedEntity -> Place, global: Global, w: WorldValue, ops: seq<WorldOp>, after: Global)
    requires Sane(w) && AllMarking(ops) && VersionsInRange(ops) && w.nextRevision + |ops| < U64
    requires before.version == policy.version ==> before == policy
    requires before.hash == policy.hash && before.locate == policy.locate
    requires Telling(before, place) && Telling(policy, place) && Mirrors(before, global, w.objects)
    requires var now := MeantAll(w, ops); Ticked(policy, global, now.objects, now.eraseRevision != w.eraseRevision, after)
    ensures Mirrors(policy, after, MeantAll(w, ops).objects)
  {
    var now := MeantAll(w, ops);
    RunsAreTold(w, ops);
    RunTraced(w, ops, 0);
    MirrorIsCoherent(before, place, global, w.objects);
    forall id | id in now.objects
      ensures after[id] == Projection(policy, now.objects[id])
    {
      var o := now.objects[id];
      if id in global && !Unchanged(policy, global[id], o) {
        RenewedIsProjection(policy, place, global[id], o);
      }
    }
  }

  /** A restored world whose erase counter is the one last seen: the entity it no longer has stays in the view. */
  lemma RestoreHidesErasure(policy: Policy, known: Known, w: WorldValue, after: Global)
    requires var now := Meant(w, DoRestore([], w.nextRevision, w.eraseRevision));
             Ticked(policy, map[1 := known], now.objects, now.eraseRevision != w.eraseRevision, after)
    ensures 1 in after && !Exact(policy, after, Meant(w, DoRestore([], w.nextRevision, w.eraseRevision)).objects)
  {
  }

  /** An update whose mutation leaves the version alone: the view keeps the old content. */
  lemma UnmarkedUpdateIsMissed(policy: Policy, o: Object, changed: Object, after: Global)
    requires o.id == 1 && changed == o.(properties := changed.properties) && policy.project(changed) != policy.project(o)
    requires var w := WorldValue(map[1 := o], o.revision, 0);
             var now := Meant(w, DoUpdate(1, _ => changed));
             Ticked(policy, map[1 := Projection(policy, o)], now.objects, false, after)
    ensures !Exact(policy, after, map[1 := changed])
  {
    assert Meant(WorldValue(map[1 := o], o.revision, 0), DoUpdate(1, _ => changed)).objects[1] == changed;
  }
}
