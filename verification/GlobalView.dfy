/** The server's projection of the whole world: what it should hold, and what one tick makes of it. */
module GlobalView {
  import opened StreamTypes
  import opened WorldModel
  import opened CellIndex

  /** A position in the world, as bit patterns. */
  datatype Place = Place(x: nat, y: nat, z: nat)

  function PlaceOf(o: Object): Place {
    Place(o.x, o.y, o.z)
  }

  /** What an entity is projected to, its hash and its position in the plane; `version` changes with the policy. */
  datatype Policy = Policy(project: Object -> ProjectedEntity, hash: Hasher, locate: Place -> Enu, version: nat)

  /** What is recorded of the object an entity was projected from. */
  datatype Stamp = Stamp(revision: nat, version: nat, place: Place, policy: nat)

  datatype Known = Known(projected: ProjectedEntity, hash: nat, enu: Enu, stamp: Stamp)

  type Global = map<WorldId, Known>

  function StampOf(policy: Policy, o: Object): Stamp {
    Stamp(o.revision, o.version, PlaceOf(o), policy.version)
  }

  function Projection(policy: Policy, o: Object): Known {
    Known(policy.project(o), policy.hash(policy.project(o)), policy.locate(PlaceOf(o)), StampOf(policy, o))
  }

  /** The object looks the same as when it was last projected. */
  predicate Unchanged(policy: Policy, known: Known, o: Object) {
    known.stamp == StampOf(policy, o)
  }

  /** The entry of an object that looks different: with an equal hash only the stamp is brought up to date, but for the
      place, which is left as it was. */
  function Renewed(policy: Policy, known: Known, o: Object): Known {
    if known.hash == policy.hash(policy.project(o)) then known.(stamp := StampOf(policy, o).(place := known.stamp.place))
    else Projection(policy, o).(enu := if known.stamp.place != PlaceOf(o) then policy.locate(PlaceOf(o)) else known.enu)
  }

  /** The entry of an object after a tick. */
  function After(policy: Policy, global: Global, o: Object): Known {
    if o.id !in global then Projection(policy, o)
    else if Unchanged(policy, global[o.id], o) then global[o.id]
    else Renewed(policy, global[o.id], o)
  }

  /** The object's projection is news. */
  predicate Changes(policy: Policy, global: Global, o: Object) {
    o.id !in global || (!Unchanged(policy, global[o.id], o) && global[o.id].hash != policy.hash(policy.project(o)))
  }

  /** The view after all objects were looked at. */
  ghost predicate Merged(policy: Policy, global: Global, objects: map<WorldId, Object>, after: Global) {
    && after.Keys == global.Keys + objects.Keys
    && (forall id | id in objects :: after[id] == After(policy, global, objects[id]))
    && (forall id | id in global && id !in objects :: after[id] == global[id])
  }

  /** The view after the tick: what is gone from the world is dropped if the world says that something was erased. */
  ghost predicate Ticked(policy: Policy, global: Global, objects: map<WorldId, Object>, erased: bool, after: Global) {
    && after.Keys == (if erased then objects.Keys else global.Keys + objects.Keys)
    && (forall id | id in objects :: after[id] == After(policy, global, objects[id]))
    && (forall id | id in after && id !in objects :: id in global && after[id] == global[id])
  }

  /** The whole world projected from scratch: the same entities with the same contents and positions. */
  predicate Exact(policy: Policy, global: Global, objects: map<WorldId, Object>) {
    && global.Keys == objects.Keys
    && forall id | id in objects ::
         var p := Projection(policy, objects[id]);
         global[id].projected == p.projected && global[id].hash == p.hash && global[id].enu == p.enu
  }

  /** Entries are consistent with themselves. */
  predicate Coherent(policy: Policy, global: Global) {
    forall id | id in global ::
      global[id].hash == policy.hash(global[id].projected) && global[id].enu == policy.locate(global[id].stamp.place)
  }

  /** Different contents have different hashes, and contents tell the place they are at. */
  ghost predicate Telling(policy: Policy, place: ProjectedEntity -> Place) {
    && (forall a, b | policy.hash(a) == policy.hash(b) :: a == b)
    && (forall o :: place(policy.project(o)) == PlaceOf(o))
  }

  /** Every entry was projected from an object at its recorded place. */
  predicate Placed(place: ProjectedEntity -> Place, global: Global) {
    forall id | id in global :: place(global[id].projected) == global[id].stamp.place
  }

  /** An object that looks the same as when it was projected still has the same projection. */
  predicate StampsTell(policy: Policy, global: Global, objects: map<WorldId, Object>) {
    forall id | id in objects && id in global && Unchanged(policy, global[id], objects[id]) ::
      policy.project(objects[id]) == global[id].projected
  }

  /** Nothing is gone from the world unless it says so. */
  predicate ErasuresTold(global: Global, objects: map<WorldId, Object>, erased: bool) {
    erased || global.Keys <= objects.Keys
  }

  lemma RenewedIsProjection(policy: Policy, place: ProjectedEntity -> Place, known: Known, o: Object)
    requires Telling(policy, place) && known.hash == policy.hash(known.projected) && known.enu == policy.locate(known.stamp.place)
    requires place(known.projected) == known.stamp.place
    ensures Renewed(policy, known, o) == Projection(policy, o)
  {
  }

  /** The tick leaves the projection of the whole world exactly if every object that looks the same still has the same
      projection, and nothing has gone from the world without an erasure being told. */
  lemma TickIsExactIff(policy: Policy, place: ProjectedEntity -> Place, global: Global, objects: map<WorldId, Object>, erased: bool, after: Global)
    requires Telling(policy, place) && Coherent(policy, global) && Placed(place, global)
    requires (forall id | id in objects :: objects[id].id == id) && Ticked(policy, global, objects, erased, after)
    ensures Exact(policy, after, objects) <==> StampsTell(policy, global, objects) && ErasuresTold(global, objects, erased)
  {
    forall id | id in objects
      ensures var p, k := Projection(policy, objects[id]), after[id];
              (k.projected == p.projected && k.hash == p.hash && k.enu == p.enu)
              <==> (id in global && Unchanged(policy, global[id], objects[id]) ==> policy.project(objects[id]) == global[id].projected)
    {
      if id in global {
        RenewedIsProjection(policy, place, global[id], objects[id]);
      }
    }
  }

  /** Whatever of an object looks different from when it was last projected, its revision, its version, its place or the policy: the
      tick projects it as it is. */
  lemma DifferenceIsSeen(policy: Policy, place: ProjectedEntity -> Place, global: Global, objects: map<WorldId, Object>, erased: bool,
                         after: Global, id: WorldId)
    requires Telling(policy, place) && Coherent(policy, global) && Placed(place, global) && Ticked(policy, global, objects, erased, after)
    requires id in objects && objects[id].id == id && id in global
    requires var o, stamp := objects[id], global[id].stamp;
             o.revision != stamp.revision || o.version != stamp.version || PlaceOf(o) != stamp.place || policy.version != stamp.policy
    ensures after[id] == Projection(policy, objects[id])
  {
    RenewedIsProjection(policy, place, global[id], objects[id]);
  }

  /** Exactly those entities are news whose projection is not what was held before, provided stamps tell. */
  lemma ChangesAreExact(policy: Policy, global: Global, objects: map<WorldId, Object>, id: WorldId)
    requires StampsTell(policy, global, objects) && Coherent(policy, global) && id in objects && objects[id].id == id
    ensures Changes(policy, global, objects[id]) <==> id !in global || global[id].hash != policy.hash(policy.project(objects[id]))
  {
  }
}
