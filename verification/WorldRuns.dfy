/** What an object reads after any number of world operations. */
module WorldRuns {
  import opened Options
  import opened WorldModel
  import opened WorldStorage
  import opened WorldEffects

  /** The object is neither erased, nor replaced from outside. */
  predicate Stays(ops: seq<WorldOp>, id: nat) {
    forall i | 0 <= i < |ops| :: !(ops[i].DoErase? && ops[i].id == id) && !(ops[i].DoUpdate? && ops[i].id == id) && !ops[i].DoRestore?
  }

  /** The value assigned last. */
  function LastAssigned(ops: seq<WorldOp>, id: nat, key: Text): Option<PropertyValue> {
    if ops == [] then None
    else
      var op := ops[|ops| - 1];
      if op.DoSet? && op.id == id && op.key == key then Some(op.value) else LastAssigned(ops[..|ops| - 1], id, key)
  }

  function Or<T>(a: Option<T>, b: Option<T>): Option<T> {
    if a.Some? then a else b
  }

  /** The relations given to an object, in order: those with a kind, and to an object there at the time. */
  function Related(w: WorldValue, ops: seq<WorldOp>, id: nat): seq<Relation> {
    if ops == [] then []
    else
      var op, init := ops[|ops| - 1], ops[..|ops| - 1];
      Related(w, init, id) +
      if op.DoRelate? && op.source == id && op.relation.kind != [] && op.relation.target in MeantAll(w, init).objects then [op.relation] else []
  }

  lemma OneOp(w: WorldValue, op: WorldOp, id: nat, key: Text)
    requires id in w.objects && Stays([op], id)
    ensures var t := Meant(w, op);
            && id in t.objects && t.objects[id].lifecycle == w.objects[id].lifecycle
            && Read(t.objects[id].properties, key) ==
               (if op.DoSet? && op.id == id && op.key == key && !w.objects[id].lifecycle.Retired? then Some(op.value)
                else Read(w.objects[id].properties, key))
            && t.objects[id].relations == w.objects[id].relations +
               if op.DoRelate? && op.source == id && op.relation.kind != [] && op.relation.target in w.objects then [op.relation] else []
  {
    assert op == [op][0];
    match op
    case DoSet(id', key', value) => SetPropertyEffect(w, id', key', value);
    case DoRelate(source, relation) => AddRelationEffect(w, source, relation);
    case DoInsert(o) => InsertEffect(w, o);
    case DoErase(id') => EraseEffect(w, id');
    case _ =>
  }

  /** In every run that leaves the object in place: each property reads the last value assigned, as far as the object takes
      any, and its relations are those given to it, in order, after those it had. */
  lemma {:induction false} ReadsLastAssigned(w: WorldValue, ops: seq<WorldOp>, id: nat, key: Text)
    requires id in w.objects && Stays(ops, id)
    ensures var now, was := MeantAll(w, ops), w.objects[id];
            && id in now.objects && now.objects[id].lifecycle == was.lifecycle
            && Read(now.objects[id].properties, key) ==
               (if was.lifecycle.Retired? then Read(was.properties, key) else Or(LastAssigned(ops, id, key), Read(was.properties, key)))
            && now.objects[id].relations == was.relations + Related(w, ops, id)
  {
    if ops == [] {
      assert w.objects[id].relations + [] == w.objects[id].relations;
    } else {
      var init, op := ops[..|ops| - 1], ops[|ops| - 1];
      ReadsLastAssigned(w, init, id, key);
      OneOp(MeantAll(w, init), op, id, key);
      RelationsJoin(w.objects[id].relations, Related(w, init, id), Related(w, ops, id)[|Related(w, init, id)|..]);
    }
  }

  lemma RelationsJoin(a: seq<Relation>, b: seq<Relation>, c: seq<Relation>)
    ensures (a + b) + c == a + (b + c)
  {
  }

  lemma {:induction false} MeantConcat(w: WorldValue, a: seq<WorldOp>, b: seq<WorldOp>)
    ensures MeantAll(w, a + b) == MeantAll(MeantAll(w, a), b)
  {
    if b == [] {
      assert a + b == a;
    } else {
      assert (a + b)[..|a + b| - 1] == a + b[..|b| - 1];
      MeantConcat(w, a, b[..|b| - 1]);
    }
  }

  /** From an object's insertion on: in every run, each property reads the last value assigned since, or what the object was
      inserted with, and the relations are those it came with and those given to it since. */
  lemma ReadsSinceInsertion(w: WorldValue, before: seq<WorldOp>, o: Object, after: seq<WorldOp>, key: Text)
    requires o.id > 0 && o.version > 0 && o.id !in MeantAll(w, before).objects && Stays(after, o.id)
    ensures var now := MeantAll(w, before + [DoInsert(o)] + after);
            && o.id in now.objects
            && Read(now.objects[o.id].properties, key) ==
               (if o.lifecycle.Retired? then Read(o.properties, key) else Or(LastAssigned(after, o.id, key), Read(o.properties, key)))
            && o.relations <= now.objects[o.id].relations
  {
    var start := MeantAll(w, before);
    InsertEffect(start, o);
    assert (before + [DoInsert(o)])[..|before|] == before;
    MeantConcat(w, before + [DoInsert(o)], after);
    ReadsLastAssigned(MeantAll(w, before + [DoInsert(o)]), after, o.id, key);
  }
}
