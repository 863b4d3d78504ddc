/** What a connection is shown over whole runs: the world changes, the engine observes it, and the connection looks at
    its area, turn by turn. */
module SightRuns {
  import opened Options
  import opened StreamTypes
  import opened Connection
  import opened FrameScan
  import opened WorldModel
  import opened WorldStorage
  import opened CellIndex
  import opened GlobalView
  import opened ProjectionEngine
  import opened VisibleSet
  import opened ObservedRuns

  /** One turn: what happens to the world, the policy then in force, and what the connection asks to see. */
  datatype Turn = Turn(ops: seq<WorldOp>, policy: Policy, subscription: Subscription, filter: Option<Relevance>)

  /** What the connection's build is given after a turn. */
  datatype Shown = Shown(global: Global, changed: seq<WorldId>, removed: seq<WorldId>, visible: seq<WorldId>, hit: bool)

  /** The news are what differs between two views. */
  ghost predicate Differ(before: Global, after: Global, changed: seq<WorldId>, removed: seq<WorldId>) {
    && Ascending(changed) && Ascending(removed)
    && (forall w :: w in changed <==> w in after && (w in before ==> before[w].projected != after[w].projected))
    && (forall w :: w in removed <==> w in before && w !in after)
  }

  /** The same as a value. */
  ghost function Differences(): (Global, Global, seq<WorldId>, seq<WorldId>) -> bool {
    (before: Global, after: Global, changed: seq<WorldId>, removed: seq<WorldId>) => Differ(before, after, changed, removed)
  }

  lemma ChangedIff(before: Policy, policy: Policy, place: ProjectedEntity -> Place, global: Global, w: WorldValue, now: WorldValue,
                   after: Global, id: WorldId)
    requires ShowsAll(before, w, global) && ShowsAll(policy, now, after) && MayFollow(place, before, policy) && id in now.objects
    requires after[id] == After(policy, global, now.objects[id])
    ensures Changes(policy, global, now.objects[id]) <==> (id in global ==> global[id].projected != after[id].projected)
  {
    if id in global {
      assert global[id] == Projection(before, w.objects[id]) && after[id] == Projection(policy, now.objects[id]);
    }
  }

  lemma OutcomeTells(before: Policy, policy: Policy, place: ProjectedEntity -> Place, global: Global, w: WorldValue, now: WorldValue, erased: bool,
                     after: Global, changed: seq<WorldId>, removed: seq<WorldId>)
    requires Shows(before, w)(global) && Shows(policy, now)(after) && Follows(place)(before, policy)
    requires Outcomes(policy, now.objects)(global, erased, after, changed, removed)
    ensures Differences()(global, after, changed, removed)
  {
    forall id
      ensures id in changed <==> id in after && (id in global ==> global[id].projected != after[id].projected)
    {
      if id in now.objects {
        assert now.objects[id].id == id;
        ChangedIff(before, policy, place, global, w, now, after, id);
      }
    }
    forall id
      ensures id in removed <==> id in global && id !in after
    {
      assert id in removed <==> id in Elements(removed);
    }
  }

  /** The entities in the cells the area touches. */
  ghost function Touched(index: DynamicCellIndex, global: Global, area: Area): set<WorldId> {
    set w | w in global && area.Some?
            && Between(index.Cell(global[w].enu), index.Cell(Lowest(area.value.0, area.value.1)), index.Cell(Highest(area.value.0, area.value.1)), index.level)
  }

  lemma QueriedIsTouched(index: DynamicCellIndex, global: Global, locations: map<WorldId, CellKey>, area: Area)
    requires AllLocated(locations, global, index)
    ensures Queried(index, locations, area) == Touched(index, global, area)
  {
  }

  /** The visible set is all that is in the cells the area touches, so all that is inside it, as far as the filter lets it
      through. */
  ghost predicate Sighted(index: DynamicCellIndex, global: Global, contents: map<WorldId, Object>, area: Area, filter: Option<Relevance>,
                          visible: seq<WorldId>)
  {
    && Ascending(visible) && Elements(visible) == Relevant(filter, contents, Touched(index, global, area)) <= global.Keys
    && (index.level <= index.grid.maxLevel && area.Some? ==>
          forall w | w in Relevant(filter, contents, global.Keys) && Inside(global[w].enu, area.value.0, area.value.1) :: w in visible)
  }

  lemma QueriedIsSighted(index: DynamicCellIndex, global: Global, locations: map<WorldId, CellKey>, contents: map<WorldId, Object>, area: Area,
                         filter: Option<Relevance>, visible: seq<WorldId>)
    requires AllLocated(locations, global, index) && Ascending(visible)
    requires Elements(visible) == Relevant(filter, contents, Queried(index, locations, area))
    ensures Sighted(index, global, contents, area, filter, visible)
  {
    QueriedIsTouched(index, global, locations, area);
    if index.level <= index.grid.maxLevel && area.Some? {
      forall w | w in Relevant(filter, contents, global.Keys) && Inside(global[w].enu, area.value.0, area.value.1)
        ensures w in visible
      {
        AllInsideSeen(index, global, locations, area, w);
        assert w in Elements(visible);
      }
    }
  }

  /** No further from the center than the radius, on each axis. */
  predicate Near(p: Enu, center: Enu, radius: real) {
    && center.east - radius <= p.east <= center.east + radius
    && center.north - radius <= p.north <= center.north + radius
    && center.up - radius <= p.up <= center.up + radius
  }

  /** Who follows a live entity sees, as far as the filter lets it through, everything no further from it than the radius, the
      entity itself among it, and nothing a cell's edge or more beyond. */
  lemma FollowerSees(index: DynamicCellIndex, global: Global, contents: map<WorldId, Object>, s: Subscription, filter: Option<Relevance>,
                     visible: seq<WorldId>)
    requires Sighted(index, global, contents, Bounds(s, global), filter, visible)
    requires s.area == None && s.follow.Some? && s.follow.value in global && s.radius >= 0.0 && index.level <= index.grid.maxLevel
    ensures var center := global[s.follow.value].enu;
            && (forall w | w in Relevant(filter, contents, global.Keys) && Near(global[w].enu, center, s.radius) :: w in visible)
            && (forall w | w in visible ::
                  && w in Relevant(filter, contents, global.Keys)
                  && center.east - s.radius - index.grid.Size(index.level) < global[w].enu.east < center.east + s.radius + index.grid.Size(index.level)
                  && center.north - s.radius - index.grid.Size(index.level) < global[w].enu.north < center.north + s.radius + index.grid.Size(index.level))
  {
    var center, area := global[s.follow.value].enu, Bounds(s, global).value;
    forall w | w in visible
      ensures w in Relevant(filter, contents, global.Keys)
      ensures center.east - s.radius - index.grid.Size(index.level) < global[w].enu.east < center.east + s.radius + index.grid.Size(index.level)
      ensures center.north - s.radius - index.grid.Size(index.level) < global[w].enu.north < center.north + s.radius + index.grid.Size(index.level)
    {
      assert w in Elements(visible);
      FoundIsNear(index.grid, index.level, index.floorHeight, global[w].enu, Lowest(area.0, area.1), Highest(area.0, area.1));
    }
  }

  /** A fixed area comes before whatever is followed; and without an area, or with nothing alive to follow, nothing is seen. */
  lemma AreaComesFirst(index: DynamicCellIndex, global: Global, contents: map<WorldId, Object>, s: Subscription, filter: Option<Relevance>,
                       visible: seq<WorldId>)
    requires Sighted(index, global, contents, Bounds(s, global), filter, visible)
    ensures s.area.Some? ==> Sighted(index, global, contents, s.area, filter, visible)
    ensures s.area == None && (s.follow == None || s.follow.value !in global) ==> visible == []
  {
    SomeElements(visible);
  }

  /** The cache serves the engine as it is. */
  ghost predicate Serves(cache: VisibleCache, engine: Engine)
    reads cache, engine, engine.index
  {
    cache.Fresh(engine.index, engine.spatialRevision, engine.index.locations)
  }

  /** The world changes and the engine observes it. */
  method Observed(world: World, engine: Engine, turn: Turn, ghost before: Policy, ghost place: ProjectedEntity -> Place)
    returns (changed: seq<WorldId>, removed: seq<WorldId>)
    requires world.Valid() && InStep(engine, world) && Shows(before, world.Value())(engine.global)
    requires Follows(place)(before, turn.policy) && Fine(world.Value(), turn.ops)
    modifies world, world.Private(), engine, engine.index
    ensures world.Valid() && world.Value() == MeantAll(old(world.Value()), turn.ops)
    ensures InStep(engine, world) && Shows(turn.policy, world.Value())(engine.global)
    ensures Differences()(old(engine.global), engine.global, changed, removed)
    ensures engine.spatialRevision >= old(engine.spatialRevision)
    ensures engine.spatialRevision == old(engine.spatialRevision) ==> engine.index.locations == old(engine.index.locations)
    ensures forall c | c in world.Private() :: c in old(world.Private()) || fresh(c)
  {
    ghost var start, global := world.Value(), engine.global;
    changed, removed := ObserveRun(world, engine, turn.ops, before, turn.policy, place);
    ghost var now := world.Value();
    OutcomeTells(before, turn.policy, place, global, start, now, now.eraseRevision != start.eraseRevision, engine.global, changed, removed);
  }

  /** The connection looks, its cache having served the index of before the tick. */
  method See(engine: Engine, world: World, cache: VisibleCache, area: Area, filter: Option<Relevance>,
             ghost revision: nat, ghost locations: map<WorldId, CellKey>)
    returns (visible: seq<WorldId>, hit: bool)
    requires engine.Located() && cache.Fresh(engine.index, revision, locations) && Holds(world.objects, world.contents)
    requires engine.spatialRevision >= revision && (engine.spatialRevision == revision ==> engine.index.locations == locations)
    modifies cache
    ensures Serves(cache, engine) && Sighted(engine.index, engine.global, world.contents, area, filter, visible)
    ensures filter == None ==> cache.valid && cache.visible == visible
    ensures filter.Some? ==> !hit && cache.valid == old(cache.valid)
    ensures hit ==> visible == old(cache.visible) && old(cache.valid) && engine.index.locations == locations
  {
    TickKeepsFresh(cache, engine.index, revision, locations, engine.spatialRevision, engine.index.locations);
    visible, hit := cache.Resolve(engine, world, area, filter);
    QueriedIsSighted(engine.index, engine.global, engine.index.locations, world.contents, area, filter, visible);
  }

  /** Looking leaves world and engine alone. */
  method SeeOnly(engine: Engine, world: World, cache: VisibleCache, area: Area, filter: Option<Relevance>,
                 ghost revision: nat, ghost locations: map<WorldId, CellKey>)
    returns (visible: seq<WorldId>, hit: bool)
    requires world.Valid() && InStep(engine, world) && cache.Fresh(engine.index, revision, locations)
    requires engine.spatialRevision >= revision && (engine.spatialRevision == revision ==> engine.index.locations == locations)
    modifies cache
    ensures world.Valid() && InStep(engine, world) && unchanged(world) && unchanged(engine) && unchanged(engine.index)
    ensures Serves(cache, engine) && Sighted(engine.index, engine.global, world.contents, area, filter, visible)
    ensures filter == None ==> cache.valid && cache.visible == visible
    ensures filter.Some? ==> !hit && cache.valid == old(cache.valid)
    ensures hit ==> visible == old(cache.visible) && old(cache.valid) && engine.index.locations == locations
  {
    visible, hit := See(engine, world, cache, area, filter, revision, locations);
  }

  /** One turn of the world, the engine and the connection. */
  method TakeTurn(world: World, engine: Engine, cache: VisibleCache, turn: Turn, ghost before: Policy, ghost place: ProjectedEntity -> Place)
    returns (shown: Shown)
    requires world.Valid() && InStep(engine, world) && Shows(before, world.Value())(engine.global) && Serves(cache, engine)
    requires Follows(place)(before, turn.policy) && Fine(world.Value(), turn.ops)
    modifies world, world.Private(), engine, engine.index, cache
    ensures world.Valid() && world.Value() == MeantAll(old(world.Value()), turn.ops)
    ensures InStep(engine, world) && Shows(turn.policy, world.Value())(engine.global) && Serves(cache, engine)
    ensures shown.global == engine.global && Differences()(old(engine.global), shown.global, shown.changed, shown.removed)
    ensures Sighted(engine.index, shown.global, world.contents, Bounds(turn.subscription, shown.global), turn.filter, shown.visible)
    ensures turn.filter == None ==> cache.valid && cache.visible == shown.visible
    ensures turn.filter.Some? ==> !shown.hit && cache.valid == old(cache.valid)
    ensures shown.hit ==> old(cache.valid) && shown.visible == old(cache.visible) && shown.global.Keys == old(engine.global.Keys)
    ensures forall c | c in world.Private() :: c in old(world.Private()) || fresh(c)
  {
    ghost var revision, locations := engine.spatialRevision, engine.index.locations;
    var changed, removed := Observed(world, engine, turn, before, place);
    var visible, hit := SeeOnly(engine, world, cache, Bounds(turn.subscription, engine.global), turn.filter, revision, locations);
    shown := Shown(engine.global, changed, removed, visible, hit);
  }
}
