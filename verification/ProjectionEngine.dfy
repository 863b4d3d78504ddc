/** The engine's tick over the world: pointers and stamps are cached, only what looks different is projected, and the view,
    the index of cells and the lists of news are brought up to date in place. */
module ProjectionEngine {
  import opened Options
  import opened StreamTypes
  import opened Connection
  import opened FrameScan
  import opened WorldModel
  import opened WorldStorage
  import opened TextOrder
  import opened CellIndex
  import opened GlobalView
  import opened OnProjection

  /** The entries are the stamps of some of the view. */
  predicate EntriesOk(entries: seq<ScanEntry>, global: Global) {
    && RisingEntries(entries)
    && forall i | 0 <= i < |entries| :: entries[i].wid in global && entries[i].stamp == global[entries[i].wid].stamp
  }

  predicate Complete(entries: seq<ScanEntry>, global: Global) {
    forall w | w in global :: exists i :: 0 <= i < |entries| && entries[i].wid == w
  }

  /** The scan cache during a tick: all of the view, unless it has to be rebuilt. */
  predicate ScanOk(entries: seq<ScanEntry>, dirty: bool, global: Global) {
    EntriesOk(entries, global) && (!dirty ==> Complete(entries, global))
  }

  predicate SameWids(a: seq<ScanEntry>, b: seq<ScanEntry>) {
    |a| == |b| && forall i | 0 <= i < |a| :: a[i].wid == b[i].wid
  }

  /** What is kept between objects of one tick: consistent entries, and everything in its cell. */
  ghost predicate Consistent(policy: Policy, place: ProjectedEntity -> Place, global: Global) {
    Telling(policy, place) && Coherent(policy, global) && Placed(place, global)
  }

  /** Renewing the object's entry gives its projection, and an equal hash means that it did not move. */
  predicate Settled(policy: Policy, global: Global, o: Object) {
    && After(policy, global, o) == Projection(policy, o)
    && (o.id in global && global[o.id].hash == policy.hash(policy.project(o)) ==> global[o.id].stamp.place == PlaceOf(o))
  }

  lemma RenewedSettled(policy: Policy, place: ProjectedEntity -> Place, global: Global, o: Object)
    requires Consistent(policy, place, global) && (o.id in global ==> !Unchanged(policy, global[o.id], o))
    ensures Settled(policy, global, o)
  {
    if o.id in global {
      RenewedIsProjection(policy, place, global[o.id], o);
    }
  }

  /** Whatever object looks different settles to its projection. */
  predicate Steady(policy: Policy, global: Global, contents: map<WorldId, Object>) {
    forall id | id in contents && (id in global ==> !Unchanged(policy, global[id], contents[id])) :: Settled(policy, global, contents[id])
  }

  /** A view with consistent entries is steady, if hashes and contents tell what they should. */
  lemma ConsistentIsSteady(policy: Policy, place: ProjectedEntity -> Place, global: Global, contents: map<WorldId, Object>)
    requires Consistent(policy, place, global) && AllKeyed(contents)
    ensures Steady(policy, global, contents)
  {
    forall id | id in contents && (id in global ==> !Unchanged(policy, global[id], contents[id]))
      ensures Settled(policy, global, contents[id])
    {
      RenewedSettled(policy, place, global, contents[id]);
    }
  }

  /** Every entity of the view is in its cell, and nothing else is. */
  predicate AllLocated(locations: map<WorldId, CellKey>, global: Global, index: DynamicCellIndex) {
    && locations.Keys == global.Keys && 0 !in global
    && forall w | w in global :: locations[w] == index.Cell(global[w].enu)
  }

  lemma LocatedWith(locations: map<WorldId, CellKey>, global: Global, index: DynamicCellIndex, id: WorldId, known: Known)
    requires AllLocated(locations, global, index) && id != 0
    ensures AllLocated(locations[id := index.Cell(known.enu)], global[id := known], index)
    ensures id in global && global[id].enu == known.enu ==> AllLocated(locations, global[id := known], index)
  {
  }

  /** The entries after one of them was brought up to date with the view. */
  lemma SyncedEntries(entries: seq<ScanEntry>, global: Global, i: nat, id: WorldId, known: Known)
    requires EntriesOk(entries, global) && i < |entries| && entries[i].wid == id
    ensures var synced := entries[i := ScanEntry(id, known.stamp)];
            EntriesOk(synced, global[id := known]) && (Complete(entries, global) ==> Complete(synced, global[id := known]))
  {
    var synced, after := entries[i := ScanEntry(id, known.stamp)], global[id := known];
    if Complete(entries, global) {
      forall w | w in after
        ensures exists j :: 0 <= j < |synced| && synced[j].wid == w
      {
        if w == id {
          assert synced[i].wid == w;
        } else {
          var j :| 0 <= j < |entries| && entries[j].wid == w;
          assert synced[j].wid == w;
        }
      }
    }
  }

  /** The entries with an entity that they do not have. */
  lemma EntriesBeside(entries: seq<ScanEntry>, global: Global, id: WorldId, known: Known)
    requires EntriesOk(entries, global) && id !in global
    ensures EntriesOk(entries, global[id := known])
  {
  }

  class Engine {
    var global: Global
    var scanCache: seq<ScanEntry>
    var scanCacheDirty: bool
    /** Pointers to the world's objects in order, and the counters they were taken at. */
    var cells: seq<Cell>
    var cellsErase: nat
    var cellsStorage: nat
    var eraseSeen: nat
    const index: DynamicCellIndex
    var spatialRevision: nat
    ghost var seen: Pointers

    ghost predicate Located()
      reads this, index
    {
      index.Valid() && AllLocated(index.locations, global, index)
    }

    ghost predicate Valid()
      reads this, index
    {
      ViewOk() && CellsOk()
    }

    ghost predicate ViewOk()
      reads this, index
    {
      Located() && (!scanCacheDirty ==> Mirrored(scanCache, global))
    }

    /** The pointers are those of the world as it was last seen. */
    ghost predicate CellsOk()
      reads this`cells, this`cellsErase, this`cellsStorage, this`seen
    {
      cells == CellsInOrder(seen.objects) && cellsErase == seen.eraseRevision && cellsStorage == seen.storageRevision
    }

    constructor (index: DynamicCellIndex)
      requires index.Valid() && index.locations == map[]
      ensures Valid() && this.index == index && global == map[] && eraseSeen == 0 && spatialRevision == 0
      ensures seen == Pointers(map[], 0, 0)
    {
      this.index := index;
      global, scanCache, scanCacheDirty := map[], [], false;
      cells, cellsErase, cellsStorage, eraseSeen, spatialRevision := [], 0, 0, 0, 0;
      seen := Pointers(map[], 0, 0);
    }

    /** One dirty object: its entry, its stamp in the scan cache, its cell. */
    method Merge(policy: Policy, d: Dirty) returns (news: bool)
      requires Located() && ScanOk(scanCache, scanCacheDirty, global)
      requires Settled(policy, global, d.o) && d.o.id != 0 && Describes(policy, scanCache, global, d, d.o)
      modifies this`global, this`scanCache, this`scanCacheDirty, this`spatialRevision, index
      ensures Located() && ScanOk(scanCache, scanCacheDirty, global)
      ensures global == old(global)[d.o.id := Projection(policy, d.o)] && news == Changes(policy, old(global), d.o)
      ensures SameWids(scanCache, old(scanCache))
      ensures spatialRevision >= old(spatialRevision)
      ensures spatialRevision == old(spatialRevision) ==> index.locations == old(index.locations)
    {
      if d.o.id in global && global[d.o.id].hash == policy.hash(policy.project(d.o)) {
        LocatedWith(index.locations, global, index, d.o.id, Projection(policy, d.o));
        Restamp(policy, d);
        news := false;
      } else {
        Renew(policy, d);
        news := true;
      }
    }

    /** The projection is another one. */
    method Renew(policy: Policy, d: Dirty)
      requires Located() && ScanOk(scanCache, scanCacheDirty, global)
      requires Settled(policy, global, d.o) && d.o.id != 0 && Describes(policy, scanCache, global, d, d.o)
      modifies this`global, this`scanCache, this`scanCacheDirty, this`spatialRevision, index
      ensures Located() && ScanOk(scanCache, scanCacheDirty, global)
      ensures global == old(global)[d.o.id := Projection(policy, d.o)] && SameWids(scanCache, old(scanCache))
      ensures spatialRevision >= old(spatialRevision)
      ensures spatialRevision == old(spatialRevision) ==> index.locations == old(index.locations)
    {
      LocatedWith(index.locations, global, index, d.o.id, Projection(policy, d.o));
      var projected := policy.project(d.o);
      var enu := Place(policy, d);
      Store(policy, d, Known(projected, policy.hash(projected), enu, StampOf(policy, d.o)));
    }

    /** The projection is the same: only the stamps move on. */
    method Restamp(policy: Policy, d: Dirty)
      requires ScanOk(scanCache, scanCacheDirty, global)
      requires d.o.id in global && Describes(policy, scanCache, global, d, d.o)
      requires global[d.o.id].stamp.place == PlaceOf(d.o)
      modifies this`global, this`scanCache
      ensures ScanOk(scanCache, scanCacheDirty, global)
      ensures global == old(global)[d.o.id := old(global)[d.o.id].(stamp := StampOf(policy, d.o))]
      ensures SameWids(scanCache, old(scanCache))
    {
      var known := global[d.o.id].(stamp := StampOf(policy, d.o).(place := global[d.o.id].stamp.place));
      SyncedEntries(scanCache, global, d.entry.value, d.o.id, known);
      global := global[d.o.id := known];
      SyncEntry(policy, d);
    }

    /** Where the entity is: only one that moved is located anew. */
    method Place(policy: Policy, d: Dirty) returns (enu: Enu)
      requires index.Valid() && d.o.id != 0 && (!d.moved ==> d.o.id in global && d.o.id in index.locations)
      requires !d.moved ==> index.locations[d.o.id] == index.Cell(global[d.o.id].enu)
      modifies this`spatialRevision, index
      ensures index.Valid() && index.locations == old(index.locations)[d.o.id := index.Cell(enu)]
      ensures enu == if d.moved then policy.locate(PlaceOf(d.o)) else global[d.o.id].enu
      ensures spatialRevision >= old(spatialRevision)
      ensures spatialRevision == old(spatialRevision) ==> index.locations == old(index.locations)
    {
      if d.moved {
        enu := policy.locate(PlaceOf(d.o));
        var _ := index.Upsert(d.o.id, enu);
        spatialRevision := spatialRevision + 1;
      } else {
        enu := global[d.o.id].enu;
        assert index.locations[d.o.id := index.Cell(enu)] == index.locations;
      }
    }

    method Store(policy: Policy, d: Dirty, known: Known)
      requires ScanOk(scanCache, scanCacheDirty, global)
      requires known.stamp == StampOf(policy, d.o) && Describes(policy, scanCache, global, d, d.o)
      modifies this`global, this`scanCache, this`scanCacheDirty
      ensures ScanOk(scanCache, scanCacheDirty, global)
      ensures global == old(global)[d.o.id := known] && SameWids(scanCache, old(scanCache))
    {
      if d.entry == None {
        EntriesBeside(scanCache, global, d.o.id, known);
        scanCacheDirty := true;
      } else {
        SyncedEntries(scanCache, global, d.entry.value, d.o.id, known);
        SyncEntry(policy, d);
      }
      global := global[d.o.id := known];
    }

    method SyncEntry(policy: Policy, d: Dirty)
      requires d.entry.Some? ==> d.entry.value < |scanCache|
      modifies this`scanCache
      ensures scanCache == if d.entry == None then old(scanCache)
                           else old(scanCache)[d.entry.value := ScanEntry(old(scanCache)[d.entry.value].wid, StampOf(policy, d.o))]
    {
      if d.entry.Some? {
        scanCache := scanCache[d.entry.value := scanCache[d.entry.value].(stamp := StampOf(policy, d.o))];
      }
    }

    /** All dirty objects in turn. */
    method MergeAll(policy: Policy, dirty: seq<Dirty>) returns (news: seq<WorldId>)
      requires Located() && ScanOk(scanCache, scanCacheDirty, global) && DistinctObjects(dirty)
      requires AllReady(policy, scanCache, global, dirty)
      modifies this`global, this`scanCache, this`scanCacheDirty, this`spatialRevision, index
      ensures Located() && ScanOk(scanCache, scanCacheDirty, global)
      ensures MergedBy(policy, old(global), dirty, global) && news == NewsOf(policy, old(global), dirty)
      ensures spatialRevision >= old(spatialRevision)
      ensures spatialRevision == old(spatialRevision) ==> index.locations == old(index.locations)
    {
      ghost var entries, was := scanCache, global;
      news := [];
      for k := 0 to |dirty|
        invariant Located() && ScanOk(scanCache, scanCacheDirty, global) && SameWids(scanCache, entries)
        invariant MergedBy(policy, was, dirty[..k], global) && news == NewsOf(policy, was, dirty[..k])
        invariant spatialRevision >= old(spatialRevision)
        invariant spatialRevision == old(spatialRevision) ==> index.locations == old(index.locations)
      {
        news := MergeNext(policy, dirty, k, news, entries, was);
      }
      assert dirty[..|dirty|] == dirty;
    }

    method MergeNext(policy: Policy, dirty: seq<Dirty>, k: nat, news: seq<WorldId>, ghost entries: seq<ScanEntry>, ghost was: Global)
      returns (more: seq<WorldId>)
      requires Located() && ScanOk(scanCache, scanCacheDirty, global) && DistinctObjects(dirty) && k < |dirty|
      requires AllReady(policy, entries, was, dirty) && SameWids(scanCache, entries) && MergedBy(policy, was, dirty[..k], global)
      requires news == NewsOf(policy, was, dirty[..k])
      modifies this`global, this`scanCache, this`scanCacheDirty, this`spatialRevision, index
      ensures Located() && ScanOk(scanCache, scanCacheDirty, global) && SameWids(scanCache, entries)
      ensures MergedBy(policy, was, dirty[..k + 1], global) && more == NewsOf(policy, was, dirty[..k + 1])
      ensures spatialRevision >= old(spatialRevision)
      ensures spatialRevision == old(spatialRevision) ==> index.locations == old(index.locations)
    {
      StillReady(policy, entries, was, dirty, k, scanCache, global);
      var isNews := Merge(policy, dirty[k]);
      MergedOneMore(policy, was, dirty, k, old(global), global);
      NewsOneMore(policy, was, dirty, k);
      more := if isNews then news + [dirty[k].o.id] else news;
    }

    /** The pointers are taken again if a counter of the world has moved. */
    method RefreshCells(world: World)
      requires CellsOk()
      requires CacheHolds(seen, world.Pointed())
      modifies this`cells, this`cellsErase, this`cellsStorage, this`seen
      ensures CellsOk() && seen == world.Pointed()
    {
      ghost var now := world.Pointed();
      if |cells| != |world.objects| || cellsErase != world.eraseRevision || cellsStorage != world.storageRevision {
        cells := TakeCells(world.objects);
        cellsErase, cellsStorage := world.eraseRevision, world.storageRevision;
      } else {
        CachedCells(seen, now);
      }
      seen := now;
    }

    /** The scan cache is built again from the view if the view's members have changed. */
    method RefreshScanCache()
      requires !scanCacheDirty ==> Mirrored(scanCache, global)
      modifies this`scanCache, this`scanCacheDirty
      ensures Mirrored(scanCache, global) && !scanCacheDirty
    {
      if scanCacheDirty {
        scanCache := TakeEntries(global);
        scanCacheDirty := false;
      }
    }

    /** What is gone from the world is taken out of the view and the index. */
    method RemoveStale(stale: seq<WorldId>)
      requires Located() && Ascending(stale) && forall w | w in stale :: w in global
      modifies this`global, this`scanCacheDirty, this`spatialRevision, index
      ensures Located() && global == old(global) - Elements(stale)
      ensures scanCacheDirty == (old(scanCacheDirty) || stale != [])
      ensures spatialRevision == old(spatialRevision) + |stale|
      ensures stale == [] ==> index.locations == old(index.locations)
    {
      ghost var was := global;
      for i := 0 to |stale|
        invariant Located() && global == was - Elements(stale[..i]) && scanCacheDirty == old(scanCacheDirty)
        invariant spatialRevision == old(spatialRevision) + i
        invariant i == 0 ==> index.locations == old(index.locations)
      {
        Without(was, stale, i);
        RemoveOne(stale[i]);
      }
      assert stale[..|stale|] == stale;
      if stale != [] {
        scanCacheDirty := true;
      }
    }

    method RemoveOne(wid: WorldId)
      requires Located()
      modifies this`global, this`spatialRevision, index
      ensures Located() && global == old(global) - {wid} && spatialRevision == old(spatialRevision) + 1
    {
      global := global - {wid};
      var _ := index.Erase(wid);
      spatialRevision := spatialRevision + 1;
    }

    /** The stale entities, if the world tells that something was erased since it was last asked. */
    method DropErased(present: set<WorldId>, eraseRevision: nat) returns (removed: seq<WorldId>)
      requires Located()
      modifies this`global, this`scanCacheDirty, this`spatialRevision, this`eraseSeen, index
      ensures Located() && eraseSeen == eraseRevision
      ensures Ascending(removed) && global == old(global) - Elements(removed)
      ensures Elements(removed) == if eraseRevision != old(eraseSeen) then old(global).Keys - present else {}
      ensures scanCacheDirty == (old(scanCacheDirty) || removed != [])
      ensures spatialRevision == old(spatialRevision) + |removed| && (removed == [] ==> index.locations == old(index.locations))
    {
      if eraseRevision != eraseSeen {
        eraseSeen := eraseRevision;
        removed := Listed(global.Keys - present);
        assert forall w | w in removed :: w in Elements(removed);
        RemoveStale(removed);
      } else {
        removed := [];
        NothingDropped(global, removed);
      }
    }

    /** The two caches. */
    method Refresh(world: World)
      requires CellsOk() && (!scanCacheDirty ==> Mirrored(scanCache, global)) && CacheHolds(seen, world.Pointed())
      modifies this`scanCache, this`scanCacheDirty, this`cells, this`cellsErase, this`cellsStorage, this`seen
      ensures CellsOk() && Mirrored(scanCache, global) && !scanCacheDirty && seen == world.Pointed()
    {
      RefreshCells(world);
      RefreshScanCache();
    }

    /** All objects of the world looked at: what is new or looks different is projected. */
    method MergeObjects(policy: Policy, objects: seq<Object>, ghost contents: map<WorldId, Object>) returns (changed: seq<WorldId>)
      requires Located() && Mirrored(scanCache, global) && !scanCacheDirty
      requires AllKeyed(contents) && ListsAll(objects, contents) && Steady(policy, global, contents)
      modifies this`global, this`scanCache, this`scanCacheDirty, this`spatialRevision, index
      ensures Located() && ScanOk(scanCache, scanCacheDirty, global)
      ensures Merged(policy, old(global), contents, global) && TellsNews(policy, old(global), contents, changed)
      ensures spatialRevision >= old(spatialRevision)
      ensures spatialRevision == old(spatialRevision) ==> index.locations == old(index.locations)
    {
      ghost var entries, was := scanCache, global;
      var dirty := FindDirty(policy, objects, scanCache, global);
      FoundAreReady(policy, scanCache, global, objects, contents, dirty);
      changed := MergeAll(policy, dirty);
      ScanIsAll(policy, entries, was, objects, contents, dirty, global);
    }

    /** The tick on the objects read from the world. */
    method Advance(policy: Policy, objects: seq<Object>, present: set<WorldId>, eraseRevision: nat, ghost contents: map<WorldId, Object>)
      returns (changed: seq<WorldId>, removed: seq<WorldId>)
      requires Located() && Mirrored(scanCache, global) && !scanCacheDirty && present == contents.Keys
      requires AllKeyed(contents) && ListsAll(objects, contents) && Steady(policy, global, contents)
      modifies this`global, this`scanCache, this`scanCacheDirty, this`spatialRevision, this`eraseSeen, index
      ensures ViewOk() && eraseSeen == eraseRevision
      ensures Outcomes(policy, contents)(old(global), eraseRevision != old(eraseSeen), global, changed, removed)
      ensures spatialRevision >= old(spatialRevision)
      ensures spatialRevision == old(spatialRevision) ==> index.locations == old(index.locations)
    {
      changed := MergeObjects(policy, objects, contents);
      ghost var merged, erased := global, eraseRevision != eraseSeen;
      removed := DropErased(present, eraseRevision);
      MergedThenDropped(policy, old(global), contents, merged, removed, erased, changed, global);
      NothingDropped(merged, removed);
    }

    /** One tick: the view becomes what `Ticked` says, `changed` are the news and `removed` what was dropped. */
    method Observe(world: World, policy: Policy, ghost contents: map<WorldId, Object>) returns (changed: seq<WorldId>, removed: seq<WorldId>)
      requires Valid() && Holds(world.objects, contents) && CacheHolds(seen, world.Pointed())
      requires AllKeyed(contents) && Steady(policy, global, contents)
      modifies this, index
      ensures Valid() && seen == world.Pointed() && eraseSeen == world.eraseRevision
      ensures Outcomes(policy, contents)(old(global), eraseSeen != old(eraseSeen), global, changed, removed)
      ensures spatialRevision >= old(spatialRevision)
      ensures spatialRevision == old(spatialRevision) ==> index.locations == old(index.locations)
    {
      var erasures := world.eraseRevision;
      var objects, present := Look(world, contents);
      changed, removed := Advance(policy, objects, present, erasures, contents);
    }

    /** The caches brought up to date, and the world's objects read through the pointers. */
    method Look(world: World, ghost contents: map<WorldId, Object>) returns (objects: seq<Object>, present: set<WorldId>)
      requires CellsOk() && (!scanCacheDirty ==> Mirrored(scanCache, global)) && CacheHolds(seen, world.Pointed())
      requires Holds(world.objects, contents) && AllKeyed(contents)
      modifies this`scanCache, this`scanCacheDirty, this`cells, this`cellsErase, this`cellsStorage, this`seen
      ensures CellsOk() && Mirrored(scanCache, global) && !scanCacheDirty && seen == world.Pointed()
      ensures ListsAll(objects, contents) && present == contents.Keys
    {
      Refresh(world);
      objects := LookAt(world.objects, cells, contents);
      present := world.objects.Keys;
    }
  }

  lemma NothingDropped(global: Global, removed: seq<WorldId>)
    ensures removed == [] ==> global - Elements(removed) == global
  {
  }

  method Listed(wids: set<WorldId>) returns (list: seq<WorldId>)
    ensures Ascending(list) && Elements(list) == wids
  {
    list := Walk(WidLe, wids);
  }

  /** Every object is stored under its own identifier, which is set. */
  predicate AllKeyed(contents: map<WorldId, Object>) {
    forall id | id in contents :: id > 0 && contents[id].id == id
  }

  /** The objects in order. */
  predicate ListsAll(objects: seq<Object>, contents: map<WorldId, Object>) {
    && RisingIds(objects)
    && (forall i | 0 <= i < |objects| :: objects[i].id in contents && contents[objects[i].id] == objects[i])
    && (forall id | id in contents :: contents[id] in objects)
  }

  /** Reads the objects through the pointers. */
  method LookAt(ghost slots: Storage, cells: seq<Cell>, ghost contents: map<WorldId, Object>) returns (objects: seq<Object>)
    requires Holds(slots, contents) && AllKeyed(contents) && cells == CellsInOrder(slots)
    ensures ListsAll(objects, contents)
  {
    ghost var ids := IdsOf(slots);
    objects := [];
    for i := 0 to |cells|
      invariant |objects| == i && forall j | 0 <= j < i :: ids[j] in contents && objects[j] == contents[ids[j]]
    {
      assert ids[i] in ids;
      objects := objects + [cells[i].value];
    }
    ReadInOrder(ids, objects, contents);
  }

  lemma ReadInOrder(ids: seq<WorldId>, objects: seq<Object>, contents: map<WorldId, Object>)
    requires Ascending(ids) && AllKeyed(contents) && |objects| == |ids| && forall id :: id in ids <==> id in contents
    requires forall j | 0 <= j < |ids| :: ids[j] in contents && objects[j] == contents[ids[j]]
    ensures ListsAll(objects, contents)
  {
    forall id | id in contents
      ensures contents[id] in objects
    {
      assert id in ids;
      var j :| 0 <= j < |ids| && ids[j] == id;
      assert objects[j] == contents[id];
    }
  }

  lemma FoundAreReady(policy: Policy, entries: seq<ScanEntry>, global: Global, objects: seq<Object>, contents: map<WorldId, Object>, dirty: seq<Dirty>)
    requires Finds(policy, entries, global, objects, dirty) && ListsAll(objects, contents) && AllKeyed(contents)
    requires Steady(policy, global, contents)
    ensures AllReady(policy, entries, global, dirty)
  {
    forall k | 0 <= k < |dirty|
      ensures Ready(policy, entries, global, dirty[k])
    {
      var o := dirty[k].o;
      assert o in objects && Describes(policy, entries, global, dirty[k], o);
      assert o.id in contents && contents[o.id] == o;
    }
  }

  lemma ScanIsAll(policy: Policy, entries: seq<ScanEntry>, global: Global, objects: seq<Object>, contents: map<WorldId, Object>,
                  dirty: seq<Dirty>, after: Global)
    requires Finds(policy, entries, global, objects, dirty) && ListsAll(objects, contents) && AllKeyed(contents)
    requires MergedBy(policy, global, dirty, after)
    ensures Merged(policy, global, contents, after) && TellsNews(policy, global, contents, NewsOf(policy, global, dirty))
  {
    FoundIsAll(policy, entries, global, objects, contents, dirty, after);
    NewsAreExact(policy, entries, global, objects, contents, dirty);
  }

  /** What a tick makes of the view, and what it tells: `changed` are the news and `removed` what was dropped. */
  ghost predicate Outcome(policy: Policy, contents: map<WorldId, Object>, global: Global, erased: bool, after: Global,
                          changed: seq<WorldId>, removed: seq<WorldId>)
  {
    && Ticked(policy, global, contents, erased, after)
    && TellsNews(policy, global, contents, changed)
    && Ascending(removed) && Elements(removed) == global.Keys - after.Keys
  }

  /** The same as a value. */
  ghost function Outcomes(policy: Policy, contents: map<WorldId, Object>): (Global, bool, Global, seq<WorldId>, seq<WorldId>) -> bool {
    (global: Global, erased: bool, after: Global, changed: seq<WorldId>, removed: seq<WorldId>) =>
      Outcome(policy, contents, global, erased, after, changed, removed)
  }

  lemma MergedThenDropped(policy: Policy, global: Global, contents: map<WorldId, Object>, merged: Global, removed: seq<WorldId>, erased: bool,
                          changed: seq<WorldId>, after: Global)
    requires Merged(policy, global, contents, merged) && after == merged - Elements(removed) && TellsNews(policy, global, contents, changed)
    requires Ascending(removed) && Elements(removed) == if erased then merged.Keys - contents.Keys else {}
    ensures Outcomes(policy, contents)(global, erased, after, changed, removed)
  {
    var dropped := Elements(removed);
    assert dropped == global.Keys - after.Keys;
  }

  lemma NewsOneMore(policy: Policy, global: Global, dirty: seq<Dirty>, k: nat)
    requires k < |dirty|
    ensures NewsOf(policy, global, dirty[..k + 1]) ==
            NewsOf(policy, global, dirty[..k]) + if Changes(policy, global, dirty[k].o) then [dirty[k].o.id] else []
  {
    assert dirty[..k + 1][..k] == dirty[..k] && dirty[..k + 1][k] == dirty[k];
  }

  lemma Without(was: Global, stale: seq<WorldId>, i: nat)
    requires i < |stale|
    ensures (was - Elements(stale[..i])) - {stale[i]} == was - Elements(stale[..i + 1])
  {
    assert Elements(stale[..i + 1]) == Elements(stale[..i]) + {stale[i]};
  }

  method TakeCells(objects: Storage) returns (cells: seq<Cell>)
    ensures cells == CellsInOrder(objects)
  {
    var ids := Walk(WidLe, objects.Keys);
    assert ids == IdsOf(objects);
    cells := CellsAt(objects, ids);
  }

  method CellsAt(objects: Storage, ids: seq<WorldId>) returns (cells: seq<Cell>)
    requires forall id | id in ids :: id in objects
    ensures |cells| == |ids| && forall j | 0 <= j < |ids| :: ids[j] in objects && cells[j] == objects[ids[j]].cell
  {
    cells := [];
    for i := 0 to |ids|
      invariant |cells| == i && forall j | 0 <= j < i :: ids[j] in objects && cells[j] == objects[ids[j]].cell
    {
      assert ids[i] in ids;
      cells := cells + [objects[ids[i]].cell];
    }
  }

  method TakeEntries(global: Global) returns (entries: seq<ScanEntry>)
    ensures Mirrored(entries, global)
  {
    var wids := Walk(WidLe, global.Keys);
    entries := EntriesOf(global, wids);
    EntriesMirror(wids, entries, global);
  }

  method EntriesOf(global: Global, wids: seq<WorldId>) returns (entries: seq<ScanEntry>)
    requires forall w | w in wids :: w in global
    ensures |entries| == |wids| && forall j | 0 <= j < |wids| :: wids[j] in global && entries[j] == ScanEntry(wids[j], global[wids[j]].stamp)
  {
    entries := [];
    for i := 0 to |wids|
      invariant |entries| == i
      invariant forall j | 0 <= j < i :: wids[j] in global && entries[j] == ScanEntry(wids[j], global[wids[j]].stamp)
    {
      assert wids[i] in wids;
      entries := entries + [ScanEntry(wids[i], global[wids[i]].stamp)];
    }
  }

  lemma EntriesMirror(wids: seq<WorldId>, entries: seq<ScanEntry>, global: Global)
    requires (forall i, j | 0 <= i < j < |wids| :: wids[i] != wids[j] && WidLe(wids[i], wids[j])) && forall w :: w in wids <==> w in global
    requires |entries| == |wids| && forall j | 0 <= j < |wids| :: wids[j] in global && entries[j] == ScanEntry(wids[j], global[wids[j]].stamp)
    ensures Mirrored(entries, global)
  {
    forall w | w in global
      ensures exists i :: 0 <= i < |entries| && entries[i].wid == w
    {
      assert w in wids;
      var i :| 0 <= i < |wids| && wids[i] == w;
      assert entries[i].wid == w;
    }
  }

  predicate AllReady(policy: Policy, entries: seq<ScanEntry>, global: Global, dirty: seq<Dirty>) {
    forall k | 0 <= k < |dirty| :: Ready(policy, entries, global, dirty[k])
  }

  /** What merging asks of a dirty object. */
  predicate Ready(policy: Policy, entries: seq<ScanEntry>, global: Global, d: Dirty) {
    Settled(policy, global, d.o) && d.o.id != 0 && Describes(policy, entries, global, d, d.o)
  }

  /** Merging some objects leaves the others ready. */
  lemma StillReady(policy: Policy, entries: seq<ScanEntry>, global: Global, dirty: seq<Dirty>, k: nat, entries': seq<ScanEntry>, now: Global)
    requires k < |dirty| && DistinctObjects(dirty) && MergedBy(policy, global, dirty[..k], now) && SameWids(entries', entries)
    requires Ready(policy, entries, global, dirty[k])
    ensures Ready(policy, entries', now, dirty[k])
  {
    SameEntry(policy, global, dirty, k, now);
  }

  lemma CachedCells(a: Pointers, b: Pointers)
    requires CacheHolds(a, b) && a.storageRevision == b.storageRevision && a.eraseRevision == b.eraseRevision
    requires |CellsInOrder(a.objects)| == |b.objects|
    ensures CellsInOrder(a.objects) == CellsInOrder(b.objects)
  {
    assert IdsOf(a.objects) == IdsOf(b.objects);
    assert forall i | 0 <= i < |IdsOf(a.objects)| :: IdsOf(a.objects)[i] in IdsOf(a.objects);
  }

  /** Pointers in order of the identifiers. */
  ghost function CellsInOrder(objects: Storage): (cells: seq<Cell>)
    ensures |cells| == |objects|
  {
    var ids := IdsOf(objects);
    seq(|ids|, i requires 0 <= i < |ids| => objects[ids[i]].cell)
  }

  ghost function IdsOf(objects: Storage): (ids: seq<WorldId>)
    ensures |ids| == |objects| && forall id :: id in ids <==> id in objects
    ensures Ascending(ids)
  {
    assert |objects| == |objects.Keys|;
    InOrder(WidLe, objects.Keys)
  }
}
