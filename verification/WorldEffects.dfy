/** What the world's operations do, field by field. */
module WorldEffects {
  import opened Integers
  import opened Options
  import opened WorldModel

  function Read(bag: Bag, key: Text): Option<PropertyValue> {
    if key in bag then Some(bag[key]) else None
  }

  /** All objects but one are there, or not, as before. */
  ghost predicate OthersKept(a: map<nat, Object>, b: map<nat, Object>, id: nat) {
    forall x: nat | x != id :: (x in b <==> x in a) && (x in a ==> b[x] == a[x])
  }

  predicate CountersKept(a: WorldValue, b: WorldValue) {
    b.nextRevision == a.nextRevision && b.eraseRevision == a.eraseRevision
  }

  /** What neither assignments nor relations touch. */
  predicate SameFrame(a: Object, b: Object) {
    && b.id == a.id && b.geometryRef == a.geometryRef && b.x == a.x && b.y == a.y && b.z == a.z
    && b.semanticType == a.semanticType && b.state == a.state && b.capabilities == a.capabilities
    && b.lifecycle == a.lifecycle && b.revision == a.revision
  }

  /** The key reads the value, every other key what it read, and the version is one more. */
  ghost predicate PropertyPut(a: Object, b: Object, key: Text, value: PropertyValue) {
    && Read(b.properties, key) == Some(value)
    && (forall k | k != key :: Read(b.properties, k) == Read(a.properties, k))
    && b.relations == a.relations && SameFrame(a, b) && b.version == (a.version + 1) % U64
  }

  /** The relation comes last, the others stay as they are, and the version is one more. */
  predicate RelationPut(a: Object, b: Object, relation: Relation) {
    && |b.relations| == |a.relations| + 1 && b.relations[|a.relations|] == relation
    && (forall i | 0 <= i < |a.relations| :: b.relations[i] == a.relations[i])
    && b.properties == a.properties && SameFrame(a, b) && b.version == (a.version + 1) % U64
  }

  /** An object enters with the next revision and otherwise as given. */
  predicate Entered(o: Object, b: Object, revision: nat) {
    SameFrame(o.(revision := revision), b) && b.properties == o.properties && b.relations == o.relations && b.version == o.version
  }

  // ---- Single operations ----

  /** An assignment is accepted exactly for an object that is there and not retired; then the key reads the value, and nothing
      else changes but the version. A refused one changes nothing. */
  lemma SetPropertyEffect(w: WorldValue, id: nat, key: Text, value: PropertyValue)
    ensures var (t, ok) := WorldModel.SetProperty(w, id, key, value);
            && (ok <==> id in w.objects && w.objects[id].lifecycle != Retired)
            && (!ok ==> t == w)
            && (ok ==> id in t.objects && PropertyPut(w.objects[id], t.objects[id], key, value)
                       && OthersKept(w.objects, t.objects, id) && CountersKept(w, t))
  {
  }

  /** A relation is accepted exactly between objects that are there and with a kind; then it comes last, and nothing else
      changes but the version. A refused one changes nothing. */
  lemma AddRelationEffect(w: WorldValue, source: nat, relation: Relation)
    ensures var (t, ok) := WorldModel.AddRelation(w, source, relation);
            && (ok <==> source in w.objects && relation.target in w.objects && |relation.kind| > 0)
            && (!ok ==> t == w)
            && (ok ==> source in t.objects && RelationPut(w.objects[source], t.objects[source], relation)
                       && OthersKept(w.objects, t.objects, source) && CountersKept(w, t))
  {
  }

  /** An insertion is accepted exactly for an identifier and a version that are set, where nothing is yet; the object enters
      with a revision of its own. A refused one keeps the objects; a revision number is used up unless the object was not in
      order. */
  lemma InsertEffect(w: WorldValue, o: Object)
    ensures var (t, ok) := WorldModel.Insert(w, o);
            && (ok <==> o.id > 0 && o.version > 0 && o.id !in w.objects)
            && t.eraseRevision == w.eraseRevision
            && t.nextRevision == (if o.id > 0 && o.version > 0 then (w.nextRevision + 1) % U64 else w.nextRevision)
            && (!ok ==> t.objects == w.objects)
            && (ok ==> o.id in t.objects && Entered(o, t.objects[o.id], t.nextRevision) && OthersKept(w.objects, t.objects, o.id))
  {
  }

  /** An erasure is accepted exactly for an object that is there, which is then gone, and is counted. */
  lemma EraseEffect(w: WorldValue, id: nat)
    ensures var (t, ok) := WorldModel.Erase(w, id);
            && (ok <==> id in w.objects) && (!ok ==> t == w)
            && (ok ==> id !in t.objects && OthersKept(w.objects, t.objects, id)
                       && t.nextRevision == w.nextRevision && t.eraseRevision == (w.eraseRevision + 1) % U64)
  {
  }

  /** A mutation replaces an object that is there, and nothing else. */
  lemma UpdateEffect(w: WorldValue, id: nat, mutation: Object -> Object)
    ensures var (t, ok) := WorldModel.Update(w, id, mutation);
            && (ok <==> id in w.objects) && (!ok ==> t == w)
            && (ok ==> id in t.objects && t.objects[id] == mutation(w.objects[id]) && OthersKept(w.objects, t.objects, id) && CountersKept(w, t))
  {
  }

  /** A restored world has the objects of the list, each the last one under its identifier. */
  lemma {:induction false} ByIdIsLast(list: seq<Object>, id: nat)
    ensures id in ById(list) <==> exists i :: 0 <= i < |list| && list[i].id == id
    ensures forall i | 0 <= i < |list| && list[i].id == id && (forall j | i < j < |list| :: list[j].id != id) :: ById(list)[id] == list[i]
  {
    if list != [] {
      var init := list[..|list| - 1];
      ByIdIsLast(init, id);
      if i :| 0 <= i < |init| && init[i].id == id {
        assert list[i].id == id;
      }
      forall i | 0 <= i < |list| && list[i].id == id && (forall j | i < j < |list| :: list[j].id != id)
        ensures ById(list)[id] == list[i]
      {
        if i < |init| {
          assert forall j | i < j < |init| :: init[j] == list[j];
          assert list[|list| - 1].id != id;
        }
      }
    }
  }
}
