/** What a connection sees: the entities in the cells its area touches, cached until the index or the area changes. */
module VisibleSet {
  import opened Options
  import opened StreamTypes
  import opened Connection
  import opened FrameScan
  import opened WorldModel
  import opened WorldStorage
  import opened CellIndex
  import opened GlobalView
  import opened ProjectionEngine

  type Area = Option<(Enu, Enu)>

  /** Whether an object concerns the connection. */
  type Relevance = Object -> bool

  /** What a connection asks to see: a fixed area, or else the surroundings of an entity. */
  datatype Subscription = Subscription(area: Area, follow: Option<WorldId>, radius: real)

  /** The area this is now. */
  function Bounds(s: Subscription, global: Global): Area {
    if s.area.Some? || s.follow == None || s.follow.value !in global then s.area
    else
      var center := global[s.follow.value].enu;
      Some((Enu(center.east - s.radius, center.north - s.radius, center.up - s.radius),
            Enu(center.east + s.radius, center.north + s.radius, center.up + s.radius)))
  }

  /** What a filter leaves of a set of entities: those whose objects exist and concern the connection. */
  ghost function Relevant(filter: Option<Relevance>, contents: map<WorldId, Object>, seen: set<WorldId>): set<WorldId> {
    if filter == None then seen else set w | w in seen && w in contents && filter.value(contents[w])
  }

  /** What a query of the index gives now; without an area nothing is visible. */
  ghost function Queried(index: DynamicCellIndex, locations: map<WorldId, CellKey>, area: Area): set<WorldId> {
    if area == None then {}
    else Found(locations, index.Cell(Lowest(area.value.0, area.value.1)), index.Cell(Highest(area.value.0, area.value.1)), index.level)
  }

  /** Every entity of the view that is inside the area is seen, if the index works at a level of its grid. */
  lemma AllInsideSeen(index: DynamicCellIndex, global: Global, locations: map<WorldId, CellKey>, area: Area, w: WorldId)
    requires AllLocated(locations, global, index) && index.level <= index.grid.maxLevel
    requires w in global && area.Some? && Inside(global[w].enu, area.value.0, area.value.1)
    ensures w in Queried(index, locations, area)
  {
    InsideIsBetween(index.grid, index.level, index.floorHeight, global[w].enu, area.value.0, area.value.1);
  }

  class VisibleCache {
    var valid: bool
    var area: Area
    var revision: nat
    var visible: seq<WorldId>
    /** Where everything was when the cache was filled. */
    ghost var at: map<WorldId, CellKey>

    /** The cache was filled by a query, and if the index has not moved on it is what a query would give. */
    ghost predicate Fresh(index: DynamicCellIndex, revisionNow: nat, locations: map<WorldId, CellKey>)
      reads this
    {
      valid ==>
        && revision <= revisionNow && (revision == revisionNow ==> at == locations)
        && Ascending(visible) && Elements(visible) == Queried(index, at, area)
    }

    constructor (index: DynamicCellIndex)
      ensures forall r, l :: Fresh(index, r, l)
      ensures !valid
    {
      valid, area, revision, visible, at := false, None, 0, [], map[];
    }

    /** The visible set, from the cache if index and area are as they were; with a filter it is asked for anew. */
    method Resolve(engine: Engine, world: World, wanted: Area, filter: Option<Relevance>) returns (seen: seq<WorldId>, hit: bool)
      requires engine.Located() && Fresh(engine.index, engine.spatialRevision, engine.index.locations)
      requires Holds(world.objects, world.contents)
      modifies this
      ensures Fresh(engine.index, engine.spatialRevision, engine.index.locations) && Ascending(seen)
      ensures Elements(seen) == Relevant(filter, world.contents, Queried(engine.index, engine.index.locations, wanted))
      ensures hit <==> filter == None && old(valid) && wanted == old(area) && old(revision) == engine.spatialRevision
      ensures hit ==> seen == old(visible)
      ensures if filter == None then valid && visible == seen && area == wanted && revision == engine.spatialRevision else unchanged(this)
    {
      if filter.Some? {
        var found := Query(engine, wanted);
        seen := Select(world.objects, world.contents, filter.value, found);
        hit := false;
        return;
      }
      hit := valid && wanted == area && revision == engine.spatialRevision;
      if !hit {
        visible := Query(engine, wanted);
        valid, area, revision, at := true, wanted, engine.spatialRevision, engine.index.locations;
      }
      seen := visible;
    }

    method Query(engine: Engine, wanted: Area) returns (seen: seq<WorldId>)
      requires engine.Located()
      ensures Ascending(seen) && Elements(seen) == Queried(engine.index, engine.index.locations, wanted)
    {
      if wanted == None {
        seen := [];
      } else {
        seen := engine.index.QueryCandidates(wanted.value.0, wanted.value.1);
      }
    }
  }

  /** Keeps those whose objects exist and concern the connection. */
  method Select(objects: Storage, ghost contents: map<WorldId, Object>, filter: Relevance, found: seq<WorldId>) returns (seen: seq<WorldId>)
    requires Holds(objects, contents) && Ascending(found)
    ensures Ascending(seen) && Elements(seen) == Relevant(Some(filter), contents, Elements(found))
  {
    seen := [];
    for i := 0 to |found|
      invariant Ascending(seen) && forall w | w in seen :: w in found[..i]
      invariant Elements(seen) == Relevant(Some(filter), contents, Elements(found[..i]))
    {
      seen := SelectNext(objects, contents, filter, found, i, seen);
    }
    assert found[..|found|] == found;
  }

  method SelectNext(objects: Storage, ghost contents: map<WorldId, Object>, filter: Relevance, found: seq<WorldId>, i: nat, seen: seq<WorldId>)
    returns (more: seq<WorldId>)
    requires Holds(objects, contents) && Ascending(found) && i < |found| && Ascending(seen) && forall w | w in seen :: w in found[..i]
    requires Elements(seen) == Relevant(Some(filter), contents, Elements(found[..i]))
    ensures Ascending(more) && forall w | w in more :: w in found[..i + 1]
    ensures Elements(more) == Relevant(Some(filter), contents, Elements(found[..i + 1]))
  {
    var w := found[i];
    assert found[..i + 1] == found[..i] + [w];
    assert Elements(found[..i + 1]) == Elements(found[..i]) + {w};
    if w in objects && filter(objects[w].cell.value) {
      forall j | 0 <= j < |seen|
        ensures seen[j] < w
      {
        assert seen[j] in seen && seen[j] in found[..i];
      }
      more := seen + [w];
      assert Elements(more) == Elements(seen) + {w};
    } else {
      more := seen;
    }
  }

  lemma SomeElements(s: seq<WorldId>)
    ensures s != [] ==> Elements(s) != {}
  {
    if s != [] {
      assert s[0] in Elements(s);
    }
  }

  /** A filter that is taken away again: the cache answers with what it held before, as a hit, although the connection was
      given less in between. */
  method FilterTakenAway(engine: Engine, world: World, cache: VisibleCache, area: Area)
    returns (first: seq<WorldId>, between: seq<WorldId>, last: seq<WorldId>, hit: bool)
    requires engine.Located() && cache.Fresh(engine.index, engine.spatialRevision, engine.index.locations)
    requires Holds(world.objects, world.contents)
    modifies cache
    ensures Elements(first) == Queried(engine.index, engine.index.locations, area)
    ensures between == [] && last == first && hit
  {
    var nothing: Relevance := (o: Object) => false;
    first, hit := cache.Resolve(engine, world, area, None);
    between, hit := cache.Resolve(engine, world, area, Some(nothing));
    assert Elements(between) == {};
    SomeElements(between);
    last, hit := cache.Resolve(engine, world, area, None);
  }

  /** A tick keeps every cache fresh: the index changes only with its revision. */
  lemma TickKeepsFresh(cache: VisibleCache, index: DynamicCellIndex, before: nat, locations: map<WorldId, CellKey>,
                       after: nat, locations': map<WorldId, CellKey>)
    requires cache.Fresh(index, before, locations)
    requires after >= before && (after == before ==> locations' == locations)
    ensures cache.Fresh(index, after, locations')
  {
  }
}
