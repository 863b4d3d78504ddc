/** The engine and the world over whole runs: the world changes, the engine observes it, and so on. */
module ObservedRuns {
  import opened Integers
  import opened StreamTypes
  import opened WorldModel
  import opened WorldStorage
  import opened GlobalView
  import opened ProjectedRuns
  import opened ProjectionEngine

  /** The view shows all of the world. */
  ghost predicate ShowsAll(policy: Policy, w: WorldValue, global: Global) {
    Mirrors(policy, global, w.objects) && Sane(w)
  }

  /** A policy may follow another: a change of content comes with a change of version. */
  ghost predicate MayFollow(place: ProjectedEntity -> Place, before: Policy, policy: Policy) {
    && (before.version == policy.version ==> before == policy)
    && before.hash == policy.hash && before.locate == policy.locate
    && Telling(before, place) && Telling(policy, place)
  }

  /** Operations that leave their mark, with room for them in the counters. */
  predicate Fine(w: WorldValue, ops: seq<WorldOp>) {
    AllMarking(ops) && VersionsInRange(ops) && w.nextRevision + |ops| < U64 && w.eraseRevision + |ops| + 1 < U64
  }

  /** The same as values. */
  ghost function Shows(policy: Policy, w: WorldValue): Global -> bool {
    (global: Global) => ShowsAll(policy, w, global)
  }

  ghost function Follows(place: ProjectedEntity -> Place): (Policy, Policy) -> bool {
    (before: Policy, policy: Policy) => MayFollow(place, before, policy)
  }

  lemma SteadyNow(before: Policy, policy: Policy, place: ProjectedEntity -> Place, global: Global, w: WorldValue, ops: seq<WorldOp>)
    requires Shows(before, w)(global) && Follows(place)(before, policy) && Fine(w, ops)
    ensures var now := MeantAll(w, ops); AllKeyed(now.objects) && Steady(policy, global, now.objects)
  {
    RunTraced(w, ops, 0);
    MirrorIsCoherent(before, place, global, w.objects);
    ConsistentIsSteady(policy, place, global, MeantAll(w, ops).objects);
  }

  lemma ShowsNow(before: Policy, policy: Policy, place: ProjectedEntity -> Place, global: Global, w: WorldValue, ops: seq<WorldOp>,
                 after: Global, changed: seq<WorldId>, removed: seq<WorldId>)
    requires Shows(before, w)(global) && Follows(place)(before, policy) && Fine(w, ops)
    requires var now := MeantAll(w, ops); Outcomes(policy, now.objects)(global, now.eraseRevision != w.eraseRevision, after, changed, removed)
    ensures Shows(policy, MeantAll(w, ops))(after)
  {
    TicksMirror(before, policy, place, global, w, ops, after);
    RunTraced(w, ops, 0);
  }

  /** The engine has seen the world as it is. */
  ghost predicate InStep(engine: Engine, world: World)
    reads engine, engine.index, world
  {
    engine.Valid() && engine.seen == world.Pointed() && engine.eraseSeen == world.eraseRevision
  }

  /** The world changes under an engine that had seen it. */
  method Change(world: World, engine: Engine, ops: seq<WorldOp>)
    requires world.Valid() && InStep(engine, world) && world.eraseRevision + |ops| + 1 < U64
    modifies world, world.Private()
    ensures world.Valid() && world.Value() == MeantAll(old(world.Value()), ops)
    ensures unchanged(engine) && unchanged(engine.index) && engine.Valid() && CacheHolds(engine.seen, world.Pointed())
    ensures forall c | c in world.Private() :: c in old(world.Private()) || fresh(c)
  {
    var _, _ := RunOps(world, ops, {});
  }

  /** Observing leaves the world alone. */
  method Look(world: World, engine: Engine, policy: Policy, ghost contents: map<WorldId, Object>)
    returns (changed: seq<WorldId>, removed: seq<WorldId>)
    requires world.Valid() && contents == world.contents && engine.Valid() && CacheHolds(engine.seen, world.Pointed())
    requires AllKeyed(contents) && Steady(policy, engine.global, contents)
    modifies engine, engine.index
    ensures world.Valid() && unchanged(world) && InStep(engine, world)
    ensures Outcomes(policy, contents)(old(engine.global), engine.eraseSeen != old(engine.eraseSeen), engine.global, changed, removed)
    ensures engine.spatialRevision >= old(engine.spatialRevision)
    ensures engine.spatialRevision == old(engine.spatialRevision) ==> engine.index.locations == old(engine.index.locations)
  {
    changed, removed := engine.Observe(world, policy, contents);
  }

  /** The engine observes the world as it is after `ops`. */
  method Watch(world: World, engine: Engine, ghost start: WorldValue, ghost ops: seq<WorldOp>, ghost before: Policy, policy: Policy,
               ghost place: ProjectedEntity -> Place)
    returns (changed: seq<WorldId>, removed: seq<WorldId>)
    requires world.Valid() && world.Value() == MeantAll(start, ops)
    requires engine.Valid() && CacheHolds(engine.seen, world.Pointed()) && engine.eraseSeen == start.eraseRevision
    requires Shows(before, start)(engine.global) && Follows(place)(before, policy) && Fine(start, ops)
    modifies engine, engine.index
    ensures world.Valid() && unchanged(world)
    ensures InStep(engine, world) && Shows(policy, world.Value())(engine.global)
    ensures Outcomes(policy, world.contents)(old(engine.global), world.eraseRevision != start.eraseRevision, engine.global, changed, removed)
    ensures engine.spatialRevision >= old(engine.spatialRevision)
    ensures engine.spatialRevision == old(engine.spatialRevision) ==> engine.index.locations == old(engine.index.locations)
  {
    ghost var contents := world.contents;
    SteadyNow(before, policy, place, engine.global, start, ops);
    changed, removed := Look(world, engine, policy, contents);
    ShowsNow(before, policy, place, old(engine.global), start, ops, engine.global, changed, removed);
  }

  /** The world changes, and the engine observes it. */
  method ObserveRun(world: World, engine: Engine, ops: seq<WorldOp>, ghost before: Policy, policy: Policy, ghost place: ProjectedEntity -> Place)
    returns (changed: seq<WorldId>, removed: seq<WorldId>)
    requires world.Valid() && InStep(engine, world) && Shows(before, world.Value())(engine.global)
    requires Follows(place)(before, policy) && Fine(world.Value(), ops)
    modifies world, world.Private(), engine, engine.index
    ensures world.Valid() && world.Value() == MeantAll(old(world.Value()), ops)
    ensures InStep(engine, world) && Shows(policy, world.Value())(engine.global)
    ensures Outcomes(policy, world.contents)(old(engine.global), world.eraseRevision != old(world.eraseRevision), engine.global, changed, removed)
    ensures engine.spatialRevision >= old(engine.spatialRevision)
    ensures engine.spatialRevision == old(engine.spatialRevision) ==> engine.index.locations == old(engine.index.locations)
    ensures forall c | c in world.Private() :: c in old(world.Private()) || fresh(c)
  {
    Change(world, engine, ops);
    changed, removed := Watch(world, engine, old(world.Value()), ops, before, policy, place);
  }
}
