/** One tick of the server's projection: only objects that look different are projected again. */
module OnProjection {
  import opened Options
  import opened StreamTypes
  import opened Connection
  import opened WorldModel
  import opened GlobalView

  /** What the scan compares: the stamps of the view in order of the WIDs. */
  datatype ScanEntry = ScanEntry(wid: WorldId, stamp: Stamp)

  /** An object to project again: whether it moved, and where the scan cache has it. */
  datatype Dirty = Dirty(o: Object, moved: bool, entry: Option<nat>)

  // ---- Finding what looks different ----

  predicate RisingIds(objects: seq<Object>) {
    forall i, j | 0 <= i < j < |objects| :: objects[i].id < objects[j].id
  }

  predicate RisingEntries(entries: seq<ScanEntry>) {
    forall i, j | 0 <= i < j < |entries| :: entries[i].wid < entries[j].wid
  }

  /** The entries are those of the view, in order. */
  predicate Mirrored(entries: seq<ScanEntry>, global: Global) {
    && RisingEntries(entries)
    && (forall i | 0 <= i < |entries| :: entries[i].wid in global && entries[i].stamp == global[entries[i].wid].stamp)
    && (forall w | w in global :: exists i :: 0 <= i < |entries| && entries[i].wid == w)
  }

  /** `d` is what the scan should say of `o`. */
  predicate Describes(policy: Policy, entries: seq<ScanEntry>, global: Global, d: Dirty, o: Object) {
    && d.o == o
    && (o.id in global ==> !Unchanged(policy, global[o.id], o))
    && d.moved == (o.id !in global || global[o.id].stamp.place != PlaceOf(o))
    && (match d.entry
        case None => o.id !in global
        case Some(i) => i < |entries| && entries[i].wid == o.id && o.id in global)
  }

  /** The dirty list has, in order, exactly the objects that look different. */
  predicate Finds(policy: Policy, entries: seq<ScanEntry>, global: Global, objects: seq<Object>, dirty: seq<Dirty>) {
    && (forall i, j | 0 <= i < j < |dirty| :: dirty[i].o.id < dirty[j].o.id)
    && (forall k | 0 <= k < |dirty| :: dirty[k].o in objects && Describes(policy, entries, global, dirty[k], dirty[k].o))
    && (forall i | 0 <= i < |objects| && (objects[i].id in global ==> !Unchanged(policy, global[objects[i].id], objects[i])) ::
          exists k :: 0 <= k < |dirty| && dirty[k].o == objects[i])
  }

  /** Where the two ordered lists have been walked to. */
  predicate Walked(entries: seq<ScanEntry>, cursor: nat, id: nat) {
    && cursor <= |entries|
    && forall j | 0 <= j < cursor :: entries[j].wid < id
  }

  lemma FindsOneMore(policy: Policy, entries: seq<ScanEntry>, global: Global, objects: seq<Object>, dirty: seq<Dirty>, o: Object, more: seq<Dirty>)
    requires Finds(policy, entries, global, objects, dirty) && forall i | 0 <= i < |objects| :: objects[i].id < o.id
    requires if o.id in global && Unchanged(policy, global[o.id], o) then more == dirty
             else |more| == |dirty| + 1 && more[..|dirty|] == dirty && Describes(policy, entries, global, more[|dirty|], o)
    ensures Finds(policy, entries, global, objects + [o], more)
  {
    var all := objects + [o];
    assert forall k | 0 <= k < |dirty| :: more[k] == dirty[k];
    forall k | 0 <= k < |more|
      ensures more[k].o in all && Describes(policy, entries, global, more[k], more[k].o)
    {
      if k < |dirty| {
        assert dirty[k].o in objects;
      } else {
        assert all[|objects|] == o;
      }
    }
    forall i, j | 0 <= i < j < |more|
      ensures more[i].o.id < more[j].o.id
    {
      if j == |dirty| {
        assert dirty[i].o in objects;
      }
    }
    forall i | 0 <= i < |all| && (all[i].id in global ==> !Unchanged(policy, global[all[i].id], all[i]))
      ensures exists k :: 0 <= k < |more| && more[k].o == all[i]
    {
      if i < |objects| {
        var k :| 0 <= k < |dirty| && dirty[k].o == objects[i];
        assert more[k].o == all[i];
      } else {
        assert more[|dirty|].o == all[i];
      }
    }
  }

  /** The object's entry is at the cursor, or nowhere. */
  lemma AtCursor(entries: seq<ScanEntry>, global: Global, cursor: nat, id: nat)
    requires Mirrored(entries, global) && Walked(entries, cursor, id) && (cursor < |entries| ==> entries[cursor].wid >= id)
    ensures id in global <==> cursor < |entries| && entries[cursor].wid == id
  {
    if id in global {
      var i :| 0 <= i < |entries| && entries[i].wid == id;
      assert i >= cursor;
    }
  }

  /** Walks the objects and the cached stamps side by side. */
  method FindDirty(policy: Policy, objects: seq<Object>, entries: seq<ScanEntry>, ghost global: Global) returns (dirty: seq<Dirty>)
    requires RisingIds(objects) && Mirrored(entries, global)
    ensures Finds(policy, entries, global, objects, dirty)
  {
    dirty := [];
    var cursor: nat := 0;
    for k := 0 to |objects|
      invariant Finds(policy, entries, global, objects[..k], dirty)
      invariant cursor <= |entries| && (k < |objects| ==> Walked(entries, cursor, objects[k].id))
    {
      var o := objects[k];
      cursor := Advance(entries, cursor, o.id);
      AtCursor(entries, global, cursor, o.id);
      ghost var was := dirty;
      dirty := Judge(policy, entries, global, cursor, o, dirty);
      assert objects[..k + 1] == objects[..k] + [o];
      FindsOneMore(policy, entries, global, objects[..k], was, o, dirty);
      if k + 1 < |objects| {
        assert o.id < objects[k + 1].id;
      }
    }
    assert objects[..|objects|] == objects;
  }

  method Advance(entries: seq<ScanEntry>, from: nat, id: nat) returns (cursor: nat)
    requires Walked(entries, from, id)
    ensures Walked(entries, cursor, id) && (cursor < |entries| ==> entries[cursor].wid >= id)
  {
    cursor := from;
    while cursor < |entries| && entries[cursor].wid < id
      invariant Walked(entries, cursor, id)
    {
      cursor := cursor + 1;
    }
  }

  /** The object joins the dirty list unless it looks the same. */
  method Judge(policy: Policy, entries: seq<ScanEntry>, ghost global: Global, cursor: nat, o: Object, dirty: seq<Dirty>) returns (more: seq<Dirty>)
    requires Mirrored(entries, global) && cursor <= |entries| && (o.id in global <==> cursor < |entries| && entries[cursor].wid == o.id)
    ensures if o.id in global && Unchanged(policy, global[o.id], o) then more == dirty
            else |more| == |dirty| + 1 && more[..|dirty|] == dirty && Describes(policy, entries, global, more[|dirty|], o)
  {
    var known := cursor < |entries| && entries[cursor].wid == o.id;
    if known && entries[cursor].stamp == StampOf(policy, o) {
      return dirty;
    }
    more := dirty + [Dirty(o, !known || entries[cursor].stamp.place != PlaceOf(o), if known then Some(cursor) else None)];
  }

  // ---- The view after the dirty objects ----

  /** The view after some dirty objects were merged in. */
  ghost predicate MergedBy(policy: Policy, global: Global, dirty: seq<Dirty>, after: Global) {
    && (forall k | 0 <= k < |dirty| :: dirty[k].o.id in after && after[dirty[k].o.id] == After(policy, global, dirty[k].o))
    && (forall id | id in global :: id in after)
    && (forall id | id in after && Untouched(dirty, id) :: id in global && after[id] == global[id])
  }

  predicate Untouched(dirty: seq<Dirty>, id: WorldId) {
    forall k | 0 <= k < |dirty| :: dirty[k].o.id != id
  }

  /** The WIDs of the dirty objects whose projection is news. */
  function NewsOf(policy: Policy, global: Global, dirty: seq<Dirty>): seq<WorldId> {
    if dirty == [] then []
    else
      NewsOf(policy, global, dirty[..|dirty| - 1]) +
      if Changes(policy, global, dirty[|dirty| - 1].o) then [dirty[|dirty| - 1].o.id] else []
  }

  predicate DistinctObjects(dirty: seq<Dirty>) {
    forall i, j | 0 <= i < j < |dirty| :: dirty[i].o.id < dirty[j].o.id
  }

  lemma MergedOneMore(policy: Policy, global: Global, dirty: seq<Dirty>, k: nat, now: Global, after: Global)
    requires k < |dirty| && DistinctObjects(dirty) && MergedBy(policy, global, dirty[..k], now)
    requires after == now[dirty[k].o.id := After(policy, now, dirty[k].o)]
    ensures MergedBy(policy, global, dirty[..k + 1], after)
    ensures Changes(policy, now, dirty[k].o) == Changes(policy, global, dirty[k].o)
  {
    var o, done := dirty[k].o, dirty[..k + 1];
    SameEntry(policy, global, dirty, k, now);
    assert done[..k] == dirty[..k] && done[k] == dirty[k];
    forall id | id in after && Untouched(done, id)
      ensures id in global && after[id] == global[id]
    {
      assert done[k].o.id != id;
      forall i | 0 <= i < k
        ensures dirty[..k][i].o.id != id
      {
        assert done[i] == dirty[..k][i];
      }
    }
    forall i | 0 <= i < |done|
      ensures done[i].o.id in after && after[done[i].o.id] == After(policy, global, done[i].o)
    {
      if i < k {
        assert dirty[..k][i] == done[i] && dirty[i].o.id < o.id;
      }
    }
  }

  /** An object not merged yet has its old entry. */
  lemma SameEntry(policy: Policy, global: Global, dirty: seq<Dirty>, k: nat, now: Global)
    requires k < |dirty| && DistinctObjects(dirty) && MergedBy(policy, global, dirty[..k], now)
    ensures var id := dirty[k].o.id; (id in now <==> id in global) && (id in now ==> now[id] == global[id])
  {
    var id := dirty[k].o.id;
    forall i | 0 <= i < k
      ensures dirty[..k][i].o.id != id
    {
      assert dirty[..k][i] == dirty[i];
    }
  }

  /** Merging what the scan finds is looking at every object. */
  lemma FoundIsAll(policy: Policy, entries: seq<ScanEntry>, global: Global, objects: seq<Object>, contents: map<WorldId, Object>, dirty: seq<Dirty>, after: Global)
    requires Finds(policy, entries, global, objects, dirty) && MergedBy(policy, global, dirty, after)
    requires (forall i | 0 <= i < |objects| :: objects[i].id in contents && contents[objects[i].id] == objects[i])
    requires (forall id | id in contents :: contents[id].id == id && contents[id] in objects)
    ensures Merged(policy, global, contents, after)
  {
    forall id | id in contents
      ensures id in after && after[id] == After(policy, global, contents[id])
    {
      FoundOne(policy, entries, global, objects, contents, dirty, after, id);
    }
    forall id | id in after && id !in contents
      ensures id in global && after[id] == global[id]
    {
      NotFound(policy, entries, global, objects, contents, dirty, id);
    }
  }

  lemma FoundOne(policy: Policy, entries: seq<ScanEntry>, global: Global, objects: seq<Object>, contents: map<WorldId, Object>,
                 dirty: seq<Dirty>, after: Global, id: WorldId)
    requires Finds(policy, entries, global, objects, dirty) && MergedBy(policy, global, dirty, after)
    requires forall i | 0 <= i < |objects| :: objects[i].id in contents && contents[objects[i].id] == objects[i]
    requires id in contents && contents[id].id == id && contents[id] in objects
    ensures id in after && after[id] == After(policy, global, contents[id])
  {
    var o := contents[id];
    if id in global && Unchanged(policy, global[id], o) {
      NotDirty(policy, entries, global, objects, contents, dirty, id);
    } else {
      var i :| 0 <= i < |objects| && objects[i] == o;
      var k :| 0 <= k < |dirty| && dirty[k].o == objects[i];
    }
  }

  lemma NotFound(policy: Policy, entries: seq<ScanEntry>, global: Global, objects: seq<Object>, contents: map<WorldId, Object>,
                 dirty: seq<Dirty>, id: WorldId)
    requires Finds(policy, entries, global, objects, dirty) && id !in contents
    requires forall i | 0 <= i < |objects| :: objects[i].id in contents && contents[objects[i].id] == objects[i]
    ensures Untouched(dirty, id)
  {
    forall k | 0 <= k < |dirty|
      ensures dirty[k].o.id != id
    {
      assert dirty[k].o in objects;
    }
  }

  lemma NotDirty(policy: Policy, entries: seq<ScanEntry>, global: Global, objects: seq<Object>, contents: map<WorldId, Object>, dirty: seq<Dirty>, id: WorldId)
    requires Finds(policy, entries, global, objects, dirty) && id in contents && id in global && Unchanged(policy, global[id], contents[id])
    requires forall i | 0 <= i < |objects| :: objects[i].id in contents && contents[objects[i].id] == objects[i]
    ensures Untouched(dirty, id)
  {
    forall k | 0 <= k < |dirty|
      ensures dirty[k].o.id != id
    {
      assert dirty[k].o in objects && Describes(policy, entries, global, dirty[k], dirty[k].o);
    }
  }

  // ---- News ----

  predicate IsNews(policy: Policy, global: Global, dirty: seq<Dirty>, id: WorldId) {
    exists k :: 0 <= k < |dirty| && dirty[k].o.id == id && Changes(policy, global, dirty[k].o)
  }

  lemma {:induction false} NewsMembers(policy: Policy, global: Global, dirty: seq<Dirty>, id: WorldId)
    ensures id in NewsOf(policy, global, dirty) <==> IsNews(policy, global, dirty, id)
  {
    if dirty != [] {
      var init, last := dirty[..|dirty| - 1], dirty[|dirty| - 1];
      NewsMembers(policy, global, init, id);
      if IsNews(policy, global, init, id) {
        var k :| 0 <= k < |init| && init[k].o.id == id && Changes(policy, global, init[k].o);
        assert dirty[k] == init[k];
      }
      if IsNews(policy, global, dirty, id) {
        var k :| 0 <= k < |dirty| && dirty[k].o.id == id && Changes(policy, global, dirty[k].o);
        assert k == |init| || init[k] == dirty[k];
      }
    }
  }

  lemma {:induction false} NewsAscend(policy: Policy, global: Global, dirty: seq<Dirty>)
    requires DistinctObjects(dirty)
    ensures Ascending(NewsOf(policy, global, dirty))
  {
    if dirty != [] {
      var init, last := dirty[..|dirty| - 1], dirty[|dirty| - 1];
      NewsAscend(policy, global, init);
      var news := NewsOf(policy, global, init);
      forall i | 0 <= i < |news|
        ensures news[i] < last.o.id
      {
        assert news[i] in news;
        NewsMembers(policy, global, init, news[i]);
        var k :| 0 <= k < |init| && init[k].o.id == news[i] && Changes(policy, global, init[k].o);
        assert dirty[k] == init[k];
      }
    }
  }

  /** The news are about exactly the objects of the world whose projection changed. */
  predicate TellsNews(policy: Policy, global: Global, contents: map<WorldId, Object>, news: seq<WorldId>) {
    && Ascending(news)
    && (forall id | id in news :: id in contents && Changes(policy, global, contents[id]))
    && (forall id | id in contents && Changes(policy, global, contents[id]) :: id in news)
  }

  lemma NewsAreExact(policy: Policy, entries: seq<ScanEntry>, global: Global, objects: seq<Object>, contents: map<WorldId, Object>, dirty: seq<Dirty>)
    requires Finds(policy, entries, global, objects, dirty)
    requires (forall i | 0 <= i < |objects| :: objects[i].id in contents && contents[objects[i].id] == objects[i])
    requires (forall id | id in contents :: contents[id].id == id && contents[id] in objects)
    ensures TellsNews(policy, global, contents, NewsOf(policy, global, dirty))
  {
    var news := NewsOf(policy, global, dirty);
    NewsAscend(policy, global, dirty);
    forall id | id in news
      ensures id in contents && Changes(policy, global, contents[id])
    {
      NewsMembers(policy, global, dirty, id);
      var k :| 0 <= k < |dirty| && dirty[k].o.id == id && Changes(policy, global, dirty[k].o);
      assert dirty[k].o in objects;
    }
    forall id | id in contents && Changes(policy, global, contents[id])
      ensures id in news
    {
      var i :| 0 <= i < |objects| && objects[i] == contents[id];
      var k :| 0 <= k < |dirty| && dirty[k].o == objects[i];
      NewsMembers(policy, global, dirty, id);
    }
  }
}
