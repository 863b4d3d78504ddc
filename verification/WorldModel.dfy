/** The world as a plain value: what its operations mean, whatever storage is underneath. */
module WorldModel {
  import opened Integers
  import opened LeBytes


  /** Strings are byte strings. */
  type Text = seq<Byte>

  /** Integers and floating-point numbers are kept as their 64-bit patterns. */
  datatype PropertyValue = Integer(bits: nat) | Number(bits: nat) | Flag(on: bool) | Words(text: Text)

  type Bag = map<Text, PropertyValue>

  datatype Relation = Relation(target: nat, kind: Text, attributes: Bag)

  datatype Lifecycle = Staged | Active | Suspended | Retired

  datatype Object = Object(
    id: nat, geometryRef: Text, x: nat, y: nat, z: nat, semanticType: Text, properties: Bag, state: Bag,
    relations: seq<Relation>, capabilities: seq<Text>, lifecycle: Lifecycle, version: nat, revision: nat)

  datatype WorldValue = WorldValue(objects: map<nat, Object>, nextRevision: nat, eraseRevision: nat)

  const EMPTY_WORLD := WorldValue(map[], 0, 0)

  /** The objects of a list by their identifiers, later ones winning. */
  function ById(list: seq<Object>): map<nat, Object> {
    if list == [] then map[] else ById(list[..|list| - 1])[list[|list| - 1].id := list[|list| - 1]]
  }

  function Bump(n: nat): nat {
    (n + 1) % U64
  }

  /** A failed insertion of a present object still uses up a revision number. */
  function Insert(w: WorldValue, o: Object): (WorldValue, bool) {
    if o.id == 0 || o.version == 0 then (w, false)
    else
      var used := w.(nextRevision := Bump(w.nextRevision));
      if o.id in w.objects then (used, false)
      else (used.(objects := w.objects[o.id := o.(revision := used.nextRevision)]), true)
  }

  function Erase(w: WorldValue, id: nat): (WorldValue, bool) {
    if id in w.objects then (w.(objects := w.objects - {id}, eraseRevision := Bump(w.eraseRevision)), true) else (w, false)
  }

  function WithProperty(o: Object, key: Text, value: PropertyValue): Object {
    o.(properties := o.properties[key := value], version := Bump(o.version))
  }

  function SetProperty(w: WorldValue, id: nat, key: Text, value: PropertyValue): (WorldValue, bool) {
    if id !in w.objects || w.objects[id].lifecycle.Retired? then (w, false)
    else (w.(objects := w.objects[id := WithProperty(w.objects[id], key, value)]), true)
  }

  function WithRelation(o: Object, relation: Relation): Object {
    o.(relations := o.relations + [relation], version := Bump(o.version))
  }

  function AddRelation(w: WorldValue, source: nat, relation: Relation): (WorldValue, bool) {
    if relation.target !in w.objects || relation.kind == [] || source !in w.objects then (w, false)
    else (w.(objects := w.objects[source := WithRelation(w.objects[source], relation)]), true)
  }

  /** A mutation is stored as it is; the version is left to it. */
  function Update(w: WorldValue, id: nat, mutation: Object -> Object): (WorldValue, bool) {
    if id !in w.objects then (w, false) else (w.(objects := w.objects[id := mutation(w.objects[id])]), true)
  }
}
