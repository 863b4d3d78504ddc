/** The world's storage: objects shared between the live world and its frozen snapshots, copied before the first
    write after a freeze. */
module WorldStorage {
  import opened Integers
  import opened WorldModel

  const GENERATION_MAX := 0xFFFF_FFFF_FFFF_FFFF

  /** One shared object. */
  class Cell {
    var value: Object

    constructor (value: Object)
      ensures this.value == value
    {
      this.value := value;
    }
  }

  /** A storage slot: the object, and the generation in which it was last made private. */
  datatype Slot = Slot(cell: Cell, generation: nat)

  type Storage = map<nat, Slot>

  ghost function Cells(objects: Storage): set<Cell> {
    set id | id in objects :: objects[id].cell
  }

  /** The slots hold exactly these objects. */
  ghost predicate Holds(objects: Storage, contents: map<nat, Object>)
    reads Cells(objects)
  {
    objects.Keys == contents.Keys && forall id | id in objects :: objects[id].cell.value == contents[id]
  }

  /** Generations are in range, no cell is shared between slots, and what is private to this generation no snapshot can see. */
  ghost predicate Shaped(objects: Storage, generation: nat, frozen: set<Cell>) {
    && 1 <= generation <= GENERATION_MAX
    && (forall id | id in objects :: objects[id].generation <= generation)
    && (forall id | id in objects && objects[id].generation == generation :: objects[id].cell !in frozen)
    && (forall i, j | i in objects && j in objects && i != j :: objects[i].cell != objects[j].cell)
  }

  class FrozenWorld {
    const objects: Storage
    const nextRevision: nat
    const eraseRevision: nat
    ghost const contents: map<nat, Object>

    constructor (objects: Storage, nextRevision: nat, eraseRevision: nat, ghost contents: map<nat, Object>)
      ensures this.objects == objects && this.nextRevision == nextRevision && this.eraseRevision == eraseRevision
      ensures this.contents == contents
    {
      this.objects, this.nextRevision, this.eraseRevision, this.contents := objects, nextRevision, eraseRevision, contents;
    }

    /** It still shows what it showed when it was taken. */
    ghost predicate Intact()
      reads Cells(objects)
    {
      Holds(objects, contents)
    }
  }

  /** The slots beside the two revisions that a cache of object pointers is checked against. */
  datatype Pointers = Pointers(objects: Storage, eraseRevision: nat, storageRevision: nat)

  /** The same pointers, whatever the generations. */
  predicate SamePointers(a: Storage, b: Storage) {
    a.Keys == b.Keys && forall id | id in a :: a[id].cell == b[id].cell
  }

  /** What one operation can do to the pointers without being noticed in the storage revision. */
  ghost predicate PointerStep(a: Pointers, b: Pointers) {
    || b.storageRevision == a.storageRevision + 1
    || (b.storageRevision == a.storageRevision && b.eraseRevision == a.eraseRevision && SamePointers(a.objects, b.objects))
    || (b.storageRevision == a.storageRevision && b.eraseRevision == Bump(a.eraseRevision) && |b.objects| <= |a.objects|)
    || (b.storageRevision == a.storageRevision && b.eraseRevision == a.eraseRevision && |b.objects| == |a.objects| + 1)
  }

  class World {
    var objects: Storage
    var generation: nat
    var storageRevision: nat
    var nextRevision: nat
    var eraseRevision: nat
    /** What the slots hold, and every cell some snapshot can see. */
    ghost var contents: map<nat, Object>
    ghost var frozen: set<Cell>

    ghost predicate Valid()
      reads this, Cells(objects)
    {
      Holds(objects, contents) && Shaped(objects, generation, frozen)
    }

    ghost function Value(): WorldValue
      reads this
    {
      WorldValue(contents, nextRevision, eraseRevision)
    }

    ghost function Pointed(): Pointers
      reads this
    {
      Pointers(objects, eraseRevision, storageRevision)
    }

    /** The cells that may be written in place. */
    ghost function Private(): set<Cell>
      reads this
    {
      set id | id in objects && objects[id].generation == generation :: objects[id].cell
    }

    constructor ()
      ensures Valid() && Value() == EMPTY_WORLD && frozen == {} && Pointed() == Pointers(map[], 0, 0)
    {
      objects, generation, storageRevision, nextRevision, eraseRevision := map[], 1, 0, 0, 0;
      contents, frozen := map[], {};
    }

    method Insert(o: Object) returns (ok: bool)
      requires Valid()
      modifies this
      ensures Valid() && frozen == old(frozen)
      ensures (Value(), ok) == WorldModel.Insert(old(Value()), o)
      ensures storageRevision == old(storageRevision)
      ensures forall id | id in old(objects) :: id in objects && objects[id] == old(objects[id])
      ensures forall c | c in Private() :: c in old(Private()) || fresh(c)
      ensures PointerStep(old(Pointed()), Pointed())
    {
      if o.id == 0 || o.version == 0 {
        return false;
      }
      nextRevision := Bump(nextRevision);
      if o.id in objects {
        return false;
      }
      var cell := new Cell(o.(revision := nextRevision));
      objects := objects[o.id := Slot(cell, generation)];
      contents := contents[o.id := cell.value];
      ok := true;
    }

    method Erase(id: nat) returns (erased: bool)
      requires Valid()
      modifies this
      ensures Valid() && frozen == old(frozen)
      ensures (Value(), erased) == WorldModel.Erase(old(Value()), id)
      ensures storageRevision == old(storageRevision) && objects == old(objects) - {id}
      ensures forall c | c in Private() :: c in old(Private()) || fresh(c)
      ensures PointerStep(old(Pointed()), Pointed())
    {
      erased := id in objects;
      if erased {
        objects := objects - {id};
        contents := contents - {id};
        eraseRevision := Bump(eraseRevision);
      }
    }

    /** The object for writing: the shared one is copied first. */
    method WritableFind(id: nat) returns (cell: Cell)
      requires Valid() && id in objects
      modifies this
      ensures Valid() && frozen == old(frozen) && Value() == old(Value())
      ensures objects == old(objects)[id := Slot(cell, generation)] && generation == old(generation)
      ensures cell in old(Private()) || fresh(cell)
      ensures storageRevision == old(storageRevision) + if objects == old(objects) then 0 else 1
      ensures forall c | c in Private() :: c in old(Private()) || fresh(c)
      ensures PointerStep(old(Pointed()), Pointed())
    {
      var found := objects[id];
      if found.generation == generation {
        return found.cell;
      }
      cell := new Cell(found.cell.value);
      objects := objects[id := Slot(cell, generation)];
      storageRevision := storageRevision + 1;
    }

    /** Writes a private object in place. */
    method Write(id: nat, cell: Cell, value: Object)
      requires Valid() && id in objects && objects[id] == Slot(cell, generation)
      modifies this`contents, cell
      ensures Valid() && Value() == old(Value()).(objects := old(contents)[id := value])
    {
      cell.value := value;
      contents := contents[id := value];
    }

    method SetProperty(id: nat, key: Text, value: PropertyValue) returns (ok: bool)
      requires Valid()
      modifies this, Private()
      ensures Valid() && frozen == old(frozen)
      ensures (Value(), ok) == WorldModel.SetProperty(old(Value()), id, key, value)
      ensures storageRevision == old(storageRevision) + if objects == old(objects) then 0 else 1
      ensures forall c | c in Private() :: c in old(Private()) || fresh(c)
      ensures PointerStep(old(Pointed()), Pointed())
    {
      if id !in objects {
        return false;
      }
      var cell := WritableFind(id);
      if cell.value.lifecycle.Retired? {
        return false;
      }
      Write(id, cell, WithProperty(cell.value, key, value));
      ok := true;
    }

    method AddRelation(source: nat, relation: Relation) returns (ok: bool)
      requires Valid()
      modifies this, Private()
      ensures Valid() && frozen == old(frozen)
      ensures (Value(), ok) == WorldModel.AddRelation(old(Value()), source, relation)
      ensures storageRevision == old(storageRevision) + if objects == old(objects) then 0 else 1
      ensures forall c | c in Private() :: c in old(Private()) || fresh(c)
      ensures PointerStep(old(Pointed()), Pointed())
    {
      if relation.target !in objects || relation.kind == [] || source !in objects {
        return false;
      }
      Relate(source, relation);
      ok := true;
    }

    method Relate(source: nat, relation: Relation)
      requires Valid() && source in objects
      modifies this, Private()
      ensures Valid() && frozen == old(frozen)
      ensures Value() == old(Value()).(objects := old(contents)[source := WithRelation(old(contents)[source], relation)])
      ensures storageRevision == old(storageRevision) + if objects == old(objects) then 0 else 1
      ensures forall c | c in Private() :: c in old(Private()) || fresh(c)
      ensures PointerStep(old(Pointed()), Pointed())
    {
      var cell := WritableFind(source);
      Write(source, cell, WithRelation(cell.value, relation));
    }

    method Update(id: nat, mutation: Object -> Object) returns (ok: bool)
      requires Valid()
      modifies this
      ensures Valid() && frozen == old(frozen)
      ensures (Value(), ok) == WorldModel.Update(old(Value()), id, mutation)
      ensures storageRevision == old(storageRevision) + if ok then 1 else 0
      ensures !ok ==> objects == old(objects)
      ensures forall c | c in Private() :: c in old(Private()) || fresh(c)
      ensures PointerStep(old(Pointed()), Pointed())
    {
      if id !in objects {
        return false;
      }
      var cell := new Cell(mutation(objects[id].cell.value));
      objects := objects[id := Slot(cell, generation)];
      contents := contents[id := cell.value];
      storageRevision := storageRevision + 1;
      ok := true;
    }

    method Restore(list: seq<Object>, nextRevision: nat, eraseRevision: nat)
      requires Valid()
      modifies this
      ensures Valid() && frozen == old(frozen)
      ensures Value() == WorldValue(ById(list), nextRevision, eraseRevision)
      ensures storageRevision == old(storageRevision) + 1
      ensures forall c | c in Private() :: c in old(Private()) || fresh(c)
      ensures PointerStep(old(Pointed()), Pointed())
    {
      var restored: Storage := map[];
      ghost var shown: map<nat, Object> := map[];
      for i := 0 to |list|
        modifies {}
        invariant Holds(restored, shown) && shown == ById(list[..i])
        invariant forall id | id in restored :: restored[id].generation == generation && fresh(restored[id].cell)
        invariant forall a, b | a in restored && b in restored && a != b :: restored[a].cell != restored[b].cell
      {
        assert list[..i + 1][..i] == list[..i];
        var cell := new Cell(list[i]);
        restored := restored[list[i].id := Slot(cell, generation)];
        shown := shown[list[i].id := list[i]];
      }
      assert list[..|list|] == list;
      objects, contents := restored, shown;
      storageRevision := storageRevision + 1;
      this.nextRevision, this.eraseRevision := nextRevision, eraseRevision;
    }

    /** Shares the whole storage with a new snapshot; from now on every object is copied before it is written. */
    method Freeze() returns (snapshot: FrozenWorld)
      requires Valid()
      modifies this
      ensures Valid() && Value() == old(Value()) && fresh(snapshot)
      ensures snapshot.Intact() && snapshot.contents == contents && snapshot.objects == old(objects)
      ensures snapshot.nextRevision == nextRevision && snapshot.eraseRevision == eraseRevision
      ensures frozen == old(frozen) + Cells(snapshot.objects)
      ensures objects.Keys == old(objects).Keys && forall id | id in objects :: objects[id].cell == old(objects[id].cell)
      ensures storageRevision >= old(storageRevision)
      ensures forall c | c in Private() :: c in old(Private()) || fresh(c)
      ensures PointerStep(old(Pointed()), Pointed())
    {
      snapshot := new FrozenWorld(objects, nextRevision, eraseRevision, contents);
      frozen := frozen + Cells(objects);
      if generation == GENERATION_MAX {
        objects := Regenerate(objects, 1);
        generation := 2;
        storageRevision := storageRevision + 1;
      } else {
        generation := generation + 1;
      }
    }
  }

  /** The same cells in another generation. */
  method Regenerate(objects: Storage, generation: nat) returns (reset: Storage)
    ensures reset.Keys == objects.Keys
    ensures forall id | id in objects :: reset[id] == Slot(objects[id].cell, generation)
  {
    reset := map[];
    var left := objects.Keys;
    while left != {}
      invariant left <= objects.Keys && reset.Keys == objects.Keys - left
      invariant forall id | id in reset :: reset[id] == Slot(objects[id].cell, generation)
      decreases |left|
    {
      var id :| id in left;
      reset := reset[id := Slot(objects[id].cell, generation)];
      left := left - {id};
    }
  }

  // ---- Whole runs ----

  datatype WorldOp =
    | DoInsert(o: Object)
    | DoErase(id: nat)
    | DoSet(id: nat, key: Text, value: PropertyValue)
    | DoRelate(source: nat, relation: Relation)
    | DoUpdate(id: nat, mutation: Object -> Object)
    | DoRestore(list: seq<Object>, nextRevision: nat, eraseRevision: nat)
    | DoFreeze

  /** What an operation means for the plain world. */
  function Meant(w: WorldValue, op: WorldOp): WorldValue {
    match op
    case DoInsert(o) => WorldModel.Insert(w, o).0
    case DoErase(id) => WorldModel.Erase(w, id).0
    case DoSet(id, key, value) => WorldModel.SetProperty(w, id, key, value).0
    case DoRelate(source, relation) => WorldModel.AddRelation(w, source, relation).0
    case DoUpdate(id, mutation) => WorldModel.Update(w, id, mutation).0
    case DoRestore(list, nextRevision, eraseRevision) => WorldValue(ById(list), nextRevision, eraseRevision)
    case DoFreeze => w
  }

  function MeantAll(w: WorldValue, ops: seq<WorldOp>): WorldValue {
    if ops == [] then w else Meant(MeantAll(w, ops[..|ops| - 1]), ops[|ops| - 1])
  }

  /** A snapshot the world knows of, still showing what it was taken from. */
  ghost predicate Sound(world: World, s: FrozenWorld)
    reads world, Cells(s.objects)
  {
    s.Intact() && Cells(s.objects) <= world.frozen
  }

  /** No operation writes to a cell that a snapshot can see. */
  method Change(world: World, op: WorldOp)
    requires world.Valid() && !op.DoFreeze?
    modifies world, world.Private()
    ensures world.Valid() && world.Value() == Meant(old(world.Value()), op) && world.frozen == old(world.frozen)
    ensures forall c | c in world.Private() :: c in old(world.Private()) || fresh(c)
    ensures PointerStep(old(world.Pointed()), world.Pointed())
  {
    match op
    case DoInsert(o) => var _ := world.Insert(o);
    case DoErase(id) => var _ := world.Erase(id);
    case DoSet(id, key, value) => var _ := world.SetProperty(id, key, value);
    case DoRelate(source, relation) => var _ := world.AddRelation(source, relation);
    case DoUpdate(id, mutation) => var _ := world.Update(id, mutation);
    case DoRestore(list, nextRevision, eraseRevision) => world.Restore(list, nextRevision, eraseRevision);
  }

  method TakeSnapshot(world: World, ghost known: set<FrozenWorld>) returns (snapshot: FrozenWorld)
    requires world.Valid() && forall s | s in known :: Sound(world, s)
    modifies world
    ensures world.Valid() && world.Value() == old(world.Value())
    ensures Sound(world, snapshot) && forall s | s in known :: Sound(world, s)
    ensures WorldValue(snapshot.contents, snapshot.nextRevision, snapshot.eraseRevision) == world.Value()
    ensures forall c | c in world.Private() :: c in old(world.Private()) || fresh(c)
    ensures PointerStep(old(world.Pointed()), world.Pointed())
  {
    snapshot := world.Freeze();
  }

  method Perform(world: World, op: WorldOp, ghost known: set<FrozenWorld>) returns (taken: set<FrozenWorld>)
    requires world.Valid() && forall s | s in known :: Sound(world, s)
    modifies world, world.Private()
    ensures world.Valid() && world.Value() == Meant(old(world.Value()), op)
    ensures forall s | s in known + taken :: Sound(world, s)
    ensures forall s | s in taken :: WorldValue(s.contents, s.nextRevision, s.eraseRevision) == old(world.Value())
    ensures forall c | c in world.Private() :: c in old(world.Private()) || fresh(c)
    ensures PointerStep(old(world.Pointed()), world.Pointed())
  {
    taken := {};
    if op.DoFreeze? {
      var snapshot := TakeSnapshot(world, known);
      taken := {snapshot};
    } else {
      Change(world, op);
    }
  }

  /** The snapshot shows the world after some of the operations. */
  ghost predicate TakenFrom(s: FrozenWorld, start: WorldValue, ops: seq<WorldOp>) {
    exists k :: 0 <= k <= |ops| && WorldValue(s.contents, s.nextRevision, s.eraseRevision) == MeantAll(start, ops[..k])
  }

  /** The pointers before the first operation and after each one. */
  ghost predicate PointerRun(run: seq<Pointers>, first: Pointers, last: Pointers) {
    && |run| > 0 && run[0] == first && run[|run| - 1] == last
    && forall i | 0 <= i < |run| - 1 :: PointerStep(run[i], run[i + 1])
  }

  /** A cache of object pointers is still good if neither the size nor a revision has changed. */
  predicate CacheHolds(a: Pointers, b: Pointers) {
    a.storageRevision == b.storageRevision && a.eraseRevision == b.eraseRevision && |a.objects| == |b.objects| ==>
      SamePointers(a.objects, b.objects)
  }

  /** Any sequence of operations, freezes among them: the live world means what the plain world means, every snapshot
      taken before or on the way still shows exactly the world it was taken from, and a cache checked by size and
      revisions is good unless the erase counter could have gone round. */
  method RunOps(world: World, ops: seq<WorldOp>, ghost earlier: set<FrozenWorld>)
    returns (taken: set<FrozenWorld>, ghost run: seq<Pointers>)
    requires world.Valid() && forall s | s in earlier :: Sound(world, s)
    modifies world, world.Private()
    ensures world.Valid() && world.Value() == MeantAll(old(world.Value()), ops)
    ensures forall s | s in earlier + taken :: s.Intact()
    ensures forall s | s in taken :: TakenFrom(s, old(world.Value()), ops)
    ensures |run| == |ops| + 1 && PointerRun(run, old(world.Pointed()), world.Pointed())
    ensures old(world.eraseRevision) + |ops| + 1 < U64 ==> CacheHolds(old(world.Pointed()), world.Pointed())
    ensures forall c | c in world.Private() :: c in old(world.Private()) || fresh(c)
  {
    taken, run := {}, [world.Pointed()];
    for i := 0 to |ops|
      invariant world.Valid() && world.Value() == MeantAll(old(world.Value()), ops[..i])
      invariant forall s | s in earlier + taken :: Sound(world, s)
      invariant forall c | c in world.Private() :: c in old(world.Private()) || fresh(c)
      invariant forall s | s in taken :: TakenFrom(s, old(world.Value()), ops)
      invariant |run| == i + 1 && PointerRun(run, old(world.Pointed()), world.Pointed())
    {
      taken, run := RunNext(world, ops, i, earlier, old(world.Value()), old(world.Pointed()), taken, run);
    }
    assert ops[..|ops|] == ops;
    if run[0].eraseRevision + |run| < U64 {
      SameRevisionsSamePointers(run);
    }
  }

  /** The next operation. */
  method RunNext(world: World, ops: seq<WorldOp>, i: nat, ghost earlier: set<FrozenWorld>, ghost start: WorldValue, ghost first: Pointers,
                 taken: set<FrozenWorld>, ghost run: seq<Pointers>)
    returns (taken': set<FrozenWorld>, ghost run': seq<Pointers>)
    requires world.Valid() && i < |ops| && world.Value() == MeantAll(start, ops[..i])
    requires forall s | s in earlier + taken :: Sound(world, s)
    requires forall s | s in taken :: TakenFrom(s, start, ops)
    requires PointerRun(run, first, world.Pointed())
    modifies world, world.Private()
    ensures world.Valid() && world.Value() == MeantAll(start, ops[..i + 1])
    ensures forall s | s in earlier + taken' :: Sound(world, s)
    ensures forall s | s in taken' :: TakenFrom(s, start, ops)
    ensures |run'| == |run| + 1 && PointerRun(run', first, world.Pointed())
    ensures forall c | c in world.Private() :: c in old(world.Private()) || fresh(c)
  {
    var more := Perform(world, ops[i], earlier + taken);
    assert ops[..i + 1][..i] == ops[..i];
    taken' := taken + more;
    RunExtends(run, first, old(world.Pointed()), world.Pointed());
    run' := run + [world.Pointed()];
  }

  lemma RunExtends(run: seq<Pointers>, first: Pointers, last: Pointers, next: Pointers)
    requires PointerRun(run, first, last) && PointerStep(last, next)
    ensures PointerRun(run + [next], first, next)
  {
  }

  /** Over any run: if size and both revisions are the same at the end as at the start, so are the pointers; no
      erase counter may have wrapped around meanwhile. */
  lemma {:induction false} SameRevisionsSamePointers(run: seq<Pointers>)
    requires |run| > 0 && PointerRun(run, run[0], run[|run| - 1])
    requires run[0].eraseRevision + |run| < U64
    ensures var a, b := run[0], run[|run| - 1];
            && a.storageRevision <= b.storageRevision
            && (a.storageRevision == b.storageRevision ==> a.eraseRevision <= b.eraseRevision < a.eraseRevision + |run|)
            && (a.storageRevision == b.storageRevision && a.eraseRevision == b.eraseRevision ==> |a.objects| <= |b.objects|)
            && CacheHolds(a, b)
  {
    if |run| > 1 {
      SameRevisionsSamePointers(run[..|run| - 1]);
      assert PointerStep(run[|run| - 2], run[|run| - 1]);
      SameSize(run[|run| - 2].objects, run[|run| - 1].objects);
    }
  }

  lemma SameSize(a: Storage, b: Storage)
    ensures SamePointers(a, b) ==> |a| == |b|
  {
    if SamePointers(a, b) {
      assert |a| == |a.Keys| && |b| == |b.Keys|;
    }
  }
}
