/** The world's checkpoint payload: every object in order of its identifier, then the two revision counters. */
module WorldCheckpoint {
  import opened Integers
  import opened Options
  import opened LeBytes
  import opened Parsing
  import opened WorldModel
  import opened BagCodec
  import opened TextOrder

  const MAX_OBJECTS := 2_000_000
  const MAX_ITEMS := 2_000_000
  const MAX_STRING_BYTES := 0x100_0000
  const FORM := TextForm(4, MAX_STRING_BYTES, 4, false)

  // ---- Relations ----

  type RawRelation = (nat, (Text, Bag))

  ghost function RelationBytes(): Relation -> seq<Byte> {
    (r: Relation) => Le(8, r.target) + (TextBytes(4, r.kind) + BagBytes(FORM, r.attributes))
  }

  function RawRelations(): Taker<RawRelation> {
    Both(Ints(8), Both(Texts(4, MAX_STRING_BYTES), Bags(FORM, MAX_ITEMS)))
  }

  function ToRelation(raw: RawRelation): Relation {
    Relation(raw.0, raw.1.0, raw.1.1)
  }

  function Relations(): Taker<Relation> {
    Mapped(RawRelations(), (raw: RawRelation) => true, ToRelation)
  }

  predicate RelationFits(r: Relation) {
    r.target < U64 && FORM.Fits(r.kind) && BagFits(FORM, MAX_ITEMS, r.attributes)
  }

  lemma RelationTakesBack(r: Relation)
    requires RelationFits(r)
    ensures TakesBack(Relations(), RelationBytes()(r), r)
  {
    Limits();
    IntTakesBack(8, r.target);
    TextTakesBack(4, MAX_STRING_BYTES, r.kind);
    BagTakesBack(FORM, MAX_ITEMS, r.attributes);
    var kinds, bags := Texts(4, MAX_STRING_BYTES), Bags(FORM, MAX_ITEMS);
    BothTakeBack(kinds, bags, TextBytes(4, r.kind), BagBytes(FORM, r.attributes), r.kind, r.attributes);
    BothTakeBack(Ints(8), Both(kinds, bags), Le(8, r.target), TextBytes(4, r.kind) + BagBytes(FORM, r.attributes),
                 r.target, (r.kind, r.attributes));
    MappedTakeBack(RawRelations(), (raw: RawRelation) => true, ToRelation, RelationBytes()(r), (r.target, (r.kind, r.attributes)));
  }

  lemma RelationInRange()
    ensures Yields(Relations(), RelationFits)
  {
    Limits();
    BagInRange(FORM, MAX_ITEMS);
    forall s | Relations()(s).Got?
      ensures RelationFits(Relations()(s).value)
    {
      var kinds, bags := Texts(4, MAX_STRING_BYTES), Bags(FORM, MAX_ITEMS);
      assert TakeBoth(Ints(8), Both(kinds, bags), s).Got?;
      var rest := TakeInt(8, s).rest;
      assert TakeBoth(kinds, bags, rest).Got? && bags(kinds(rest).rest).Got?;
    }
  }

  // ---- Objects ----

  function TextWriter(): Text -> seq<Byte> {
    (text: Text) => TextBytes(4, text)
  }

  type Links = (seq<Relation>, seq<Text>)
  type Content = ((Text, Text), ((Bag, Bag), Links))
  type RawObject = (seq<nat>, (nat, (seq<nat>, Content)))

  function LinksTaker(): Taker<Links> {
    Both(Counteds(4, Relations(), MAX_ITEMS), Counteds(4, Texts(4, MAX_STRING_BYTES), MAX_ITEMS))
  }

  function ContentTaker(): Taker<Content> {
    Both(Both(Texts(4, MAX_STRING_BYTES), Texts(4, MAX_STRING_BYTES)), Both(Both(Bags(FORM, MAX_ITEMS), Bags(FORM, MAX_ITEMS)), LinksTaker()))
  }

  function RawObjects(): Taker<RawObject> {
    Both(Manys(Ints(8), 3), Both(Ints(1), Both(Manys(Ints(8), 3), ContentTaker())))
  }

  ghost function LinksBytes(o: Object): seq<Byte> {
    WriteCounted(4, RelationBytes(), o.relations) + WriteCounted(4, TextWriter(), o.capabilities)
  }

  ghost function ContentBytes(o: Object): seq<Byte> {
    (TextBytes(4, o.geometryRef) + TextBytes(4, o.semanticType)) + ((BagBytes(FORM, o.properties) + BagBytes(FORM, o.state)) + LinksBytes(o))
  }

  function Code(l: Lifecycle): nat {
    match l
    case Staged => 0
    case Active => 1
    case Suspended => 2
    case Retired => 3
  }

  function Decoded(code: nat): Lifecycle {
    if code == 0 then Staged else if code == 1 then Active else if code == 2 then Suspended else Retired
  }

  ghost function ObjectBytes(): Object -> seq<Byte> {
    (o: Object) =>
      WriteMany(IntBytes(8), [o.id, o.version, o.revision]) +
      (Le(1, Code(o.lifecycle)) + PlacedBytes(o))
  }

  function At(s: seq<nat>, i: nat): nat {
    if i < |s| then s[i] else 0
  }

  function ToObject(raw: RawObject): Object {
    var ids, lifecycle, place, content := raw.0, raw.1.0, raw.1.1.0, raw.1.1.1;
    Object(At(ids, 0), content.0.0, At(place, 0), At(place, 1), At(place, 2), content.0.1, content.1.0.0, content.1.0.1,
           content.1.1.0, content.1.1.1, Decoded(lifecycle), At(ids, 1), At(ids, 2))
  }

  /** Identifier, version and revision are set, and the lifecycle state exists. */
  predicate RawOk(raw: RawObject) {
    At(raw.0, 0) > 0 && At(raw.0, 1) > 0 && At(raw.0, 2) > 0 && raw.1.0 <= 3
  }

  function Objects(): Taker<Object> {
    Mapped(RawObjects(), RawOk, ToObject)
  }

  predicate LinksFit(o: Object) {
    && |o.relations| <= MAX_ITEMS && (forall i | 0 <= i < |o.relations| :: RelationFits(o.relations[i]))
    && |o.capabilities| <= MAX_ITEMS && (forall i | 0 <= i < |o.capabilities| :: FORM.Fits(o.capabilities[i]))
  }

  predicate ObjectFits(o: Object) {
    && 0 < o.id < U64 && 0 < o.version < U64 && 0 < o.revision < U64 && o.x < U64 && o.y < U64 && o.z < U64
    && FORM.Fits(o.geometryRef) && FORM.Fits(o.semanticType)
    && BagFits(FORM, MAX_ITEMS, o.properties) && BagFits(FORM, MAX_ITEMS, o.state)
    && LinksFit(o)
  }

  lemma LinksTakeBack(o: Object)
    requires LinksFit(o)
    ensures TakesBack(LinksTaker(), LinksBytes(o), (o.relations, o.capabilities))
  {
    Limits();
    forall i | 0 <= i < |o.relations|
      ensures TakesBack(Relations(), RelationBytes()(o.relations[i]), o.relations[i])
    {
      RelationTakesBack(o.relations[i]);
    }
    CountedTakeBack(4, Relations(), RelationBytes(), MAX_ITEMS, o.relations);
    var texts := Texts(4, MAX_STRING_BYTES);
    forall i | 0 <= i < |o.capabilities|
      ensures TakesBack(texts, TextWriter()(o.capabilities[i]), o.capabilities[i])
    {
      TextTakesBack(4, MAX_STRING_BYTES, o.capabilities[i]);
    }
    CountedTakeBack(4, texts, TextWriter(), MAX_ITEMS, o.capabilities);
    BothTakeBack(Counteds(4, Relations(), MAX_ITEMS), Counteds(4, texts, MAX_ITEMS), WriteCounted(4, RelationBytes(), o.relations),
                 WriteCounted(4, TextWriter(), o.capabilities), o.relations, o.capabilities);
  }

  lemma ContentTakesBack(o: Object)
    requires ObjectFits(o)
    ensures TakesBack(ContentTaker(), ContentBytes(o),
                      ((o.geometryRef, o.semanticType), ((o.properties, o.state), (o.relations, o.capabilities))))
  {
    var texts, bags := Texts(4, MAX_STRING_BYTES), Bags(FORM, MAX_ITEMS);
    TextTakesBack(4, MAX_STRING_BYTES, o.geometryRef);
    TextTakesBack(4, MAX_STRING_BYTES, o.semanticType);
    BothTakeBack(texts, texts, TextBytes(4, o.geometryRef), TextBytes(4, o.semanticType), o.geometryRef, o.semanticType);
    BagTakesBack(FORM, MAX_ITEMS, o.properties);
    BagTakesBack(FORM, MAX_ITEMS, o.state);
    BothTakeBack(bags, bags, BagBytes(FORM, o.properties), BagBytes(FORM, o.state), o.properties, o.state);
    LinksTakeBack(o);
    BothTakeBack(Both(bags, bags), LinksTaker(), BagBytes(FORM, o.properties) + BagBytes(FORM, o.state), LinksBytes(o),
                 (o.properties, o.state), (o.relations, o.capabilities));
    BothTakeBack(Both(texts, texts), Both(Both(bags, bags), LinksTaker()), TextBytes(4, o.geometryRef) + TextBytes(4, o.semanticType),
                 (BagBytes(FORM, o.properties) + BagBytes(FORM, o.state)) + LinksBytes(o),
                 (o.geometryRef, o.semanticType), ((o.properties, o.state), (o.relations, o.capabilities)));
  }

  lemma ThreeTakeBack(a: nat, b: nat, c: nat)
    requires a < U64 && b < U64 && c < U64
    ensures TakesBack(Manys(Ints(8), 3), WriteMany(IntBytes(8), [a, b, c]), [a, b, c])
  {
    Limits();
    var s := [a, b, c];
    forall i | 0 <= i < |s|
      ensures TakesBack(Ints(8), IntBytes(8)(s[i]), s[i])
    {
      IntTakesBack(8, s[i]);
    }
    ManysTakeBack(Ints(8), IntBytes(8), s);
  }

  function RawOf(o: Object): RawObject {
    ([o.id, o.version, o.revision],
     (Code(o.lifecycle), ([o.x, o.y, o.z], ((o.geometryRef, o.semanticType), ((o.properties, o.state), (o.relations, o.capabilities))))))
  }

  ghost function PlacedBytes(o: Object): seq<Byte> {
    WriteMany(IntBytes(8), [o.x, o.y, o.z]) + ContentBytes(o)
  }

  lemma PlacedTakesBack(o: Object)
    requires ObjectFits(o)
    ensures TakesBack(Both(Manys(Ints(8), 3), ContentTaker()), PlacedBytes(o), RawOf(o).1.1)
  {
    ThreeTakeBack(o.x, o.y, o.z);
    ContentTakesBack(o);
    BothTakeBack(Manys(Ints(8), 3), ContentTaker(), WriteMany(IntBytes(8), [o.x, o.y, o.z]), ContentBytes(o), [o.x, o.y, o.z], RawOf(o).1.1.1);
  }

  lemma CodeTakesBack<T>(l: Lifecycle, take: Taker<T>, bytes: seq<Byte>, value: T)
    requires TakesBack(take, bytes, value)
    ensures TakesBack(Both(Ints(1), take), Le(1, Code(l)) + bytes, (Code(l), value))
  {
    assert Limit(1) == 256;
    IntTakesBack(1, Code(l));
    BothTakeBack(Ints(1), take, Le(1, Code(l)), bytes, Code(l), value);
  }

  lemma StateTakesBack(o: Object)
    requires ObjectFits(o)
    ensures TakesBack(Both(Ints(1), Both(Manys(Ints(8), 3), ContentTaker())), Le(1, Code(o.lifecycle)) + PlacedBytes(o), RawOf(o).1)
  {
    PlacedTakesBack(o);
    CodeTakesBack(o.lifecycle, Both(Manys(Ints(8), 3), ContentTaker()), PlacedBytes(o), RawOf(o).1.1);
  }

  lemma RawTakesBack(o: Object)
    requires ObjectFits(o)
    ensures TakesBack(RawObjects(), ObjectBytes()(o), RawOf(o))
  {
    ThreeTakeBack(o.id, o.version, o.revision);
    StateTakesBack(o);
    BothTakeBack(Manys(Ints(8), 3), Both(Ints(1), Both(Manys(Ints(8), 3), ContentTaker())),
                 WriteMany(IntBytes(8), [o.id, o.version, o.revision]),
                 Le(1, Code(o.lifecycle)) + PlacedBytes(o),
                 [o.id, o.version, o.revision], RawOf(o).1);
  }

  lemma FromRawOf(o: Object)
    requires ObjectFits(o)
    ensures RawOk(RawOf(o)) && ToObject(RawOf(o)) == o
  {
  }

  lemma ObjectTakesBack(o: Object)
    requires ObjectFits(o)
    ensures TakesBack(Objects(), ObjectBytes()(o), o)
  {
    RawTakesBack(o);
    FromRawOf(o);
    MappedTakeBack(RawObjects(), RawOk, ToObject, ObjectBytes()(o), RawOf(o));
  }

  lemma LinksInRange(s: seq<Byte>)
    requires LinksTaker()(s).Got?
    ensures var links := LinksTaker()(s).value;
            && |links.0| <= MAX_ITEMS && AllOk(RelationFits, links.0)
            && |links.1| <= MAX_ITEMS && AllOk((text: Text) => FORM.Fits(text), links.1)
  {
    RelationInRange();
    CountedYield(4, Relations(), RelationFits, MAX_ITEMS);
    TextInRange(4, MAX_STRING_BYTES);
    var texts, fits := Texts(4, MAX_STRING_BYTES), (text: Text) => FORM.Fits(text);
    assert Yields(texts, fits);
    CountedYield(4, texts, fits, MAX_ITEMS);
    var rest := Counteds(4, Relations(), MAX_ITEMS)(s).rest;
    assert Counteds(4, Relations(), MAX_ITEMS)(s).Got? && Counteds(4, texts, MAX_ITEMS)(rest).Got?;
  }

  lemma ContentInRange(s: seq<Byte>)
    requires ContentTaker()(s).Got?
    ensures var c := ContentTaker()(s).value;
            && FORM.Fits(c.0.0) && FORM.Fits(c.0.1) && BagFits(FORM, MAX_ITEMS, c.1.0.0) && BagFits(FORM, MAX_ITEMS, c.1.0.1)
            && |c.1.1.0| <= MAX_ITEMS && AllOk(RelationFits, c.1.1.0)
            && |c.1.1.1| <= MAX_ITEMS && AllOk((text: Text) => FORM.Fits(text), c.1.1.1)
  {
    BagInRange(FORM, MAX_ITEMS);
    var texts, bags := Texts(4, MAX_STRING_BYTES), Bags(FORM, MAX_ITEMS);
    var names := TakeBoth(texts, texts, s);
    assert names.Got? && texts(texts(s).rest).Got?;
    var sacks := TakeBoth(bags, bags, names.rest);
    assert TakeBoth(Both(bags, bags), LinksTaker(), names.rest).Got?;
    assert sacks.Got? && bags(names.rest).Got? && bags(bags(names.rest).rest).Got?;
    LinksInRange(sacks.rest);
  }

  lemma ThreeInRange(s: seq<Byte>)
    requires Manys(Ints(8), 3)(s).Got?
    ensures var three := Manys(Ints(8), 3)(s).value; |three| == 3 && forall i | 0 <= i < 3 :: three[i] < U64
  {
    Limits();
    IntInRange(8);
    ManyYield(Ints(8), v => v < Limit(8), 3, s);
  }

  /** Whatever object is read is within the limits. */
  lemma ObjectInRange()
    ensures Yields(Objects(), ObjectFits)
  {
    forall s | Objects()(s).Got?
      ensures ObjectFits(Objects()(s).value)
    {
      var ids := Manys(Ints(8), 3)(s);
      assert RawObjects()(s).Got? && ids.Got?;
      var lifecycle := Ints(1)(ids.rest);
      assert Both(Ints(1), Both(Manys(Ints(8), 3), ContentTaker()))(ids.rest).Got? && lifecycle.Got?;
      var place := Manys(Ints(8), 3)(lifecycle.rest);
      assert Both(Manys(Ints(8), 3), ContentTaker())(lifecycle.rest).Got? && place.Got? && ContentTaker()(place.rest).Got?;
      ThreeInRange(s);
      ThreeInRange(lifecycle.rest);
      ContentInRange(place.rest);
      FitsFromRaw(RawObjects()(s).value);
    }
  }

  lemma FitsFromRaw(raw: RawObject)
    requires RawOk(raw) && |raw.0| == 3 && |raw.1.1.0| == 3
    requires (forall i | 0 <= i < 3 :: raw.0[i] < U64) && forall i | 0 <= i < 3 :: raw.1.1.0[i] < U64
    requires var c := raw.1.1.1;
             && FORM.Fits(c.0.0) && FORM.Fits(c.0.1) && BagFits(FORM, MAX_ITEMS, c.1.0.0) && BagFits(FORM, MAX_ITEMS, c.1.0.1)
             && |c.1.1.0| <= MAX_ITEMS && AllOk(RelationFits, c.1.1.0)
             && |c.1.1.1| <= MAX_ITEMS && AllOk((text: Text) => FORM.Fits(text), c.1.1.1)
    ensures ObjectFits(ToObject(raw))
  {
    var o, c := ToObject(raw), raw.1.1.1;
    forall i | 0 <= i < |o.relations|
      ensures RelationFits(o.relations[i])
    {
      assert o.relations[i] == c.1.1.0[i];
    }
    forall i | 0 <= i < |o.capabilities|
      ensures FORM.Fits(o.capabilities[i])
    {
      var fits := (text: Text) => FORM.Fits(text);
      assert fits(c.1.1.1[i]);
    }
  }

  // ---- The whole world ----

  predicate IdLe(a: nat, b: nat) {
    a <= b
  }

  /** The objects stored under some identifiers. */
  function ObjectsOf(objects: map<nat, Object>, ids: seq<nat>): (list: seq<Object>)
    requires forall id | id in ids :: id in objects
    ensures |list| == |ids|
  {
    seq(|ids|, i requires 0 <= i < |ids| => objects[ids[i]])
  }

  ghost function IdsInOrder(w: WorldValue): (ids: seq<nat>)
    ensures |ids| == |w.objects| && forall id :: id in ids <==> id in w.objects
    ensures forall i, j | 0 <= i < j < |ids| :: ids[i] < ids[j]
  {
    assert |w.objects| == |w.objects.Keys|;
    InOrder(IdLe, w.objects.Keys)
  }

  /** The objects in order of their identifiers. */
  ghost function ObjectsInOrder(w: WorldValue): seq<Object> {
    ObjectsOf(w.objects, IdsInOrder(w))
  }

  function SizeBytes(n: nat): seq<Byte> {
    Le(8, n)
  }

  function CounterBytes(w: WorldValue): seq<Byte> {
    Le(8, w.nextRevision) + Le(8, w.eraseRevision)
  }

  ghost function WorldBytes(w: WorldValue): seq<Byte> {
    SizeBytes(|w.objects|) + (WriteMany(ObjectBytes(), ObjectsInOrder(w)) + CounterBytes(w))
  }

  predicate IdsRise(list: seq<Object>) {
    forall i | 0 < i < |list| :: list[i - 1].id < list[i].id
  }

  predicate RevisionsUpTo(limit: nat, list: seq<Object>) {
    forall i | 0 <= i < |list| :: list[i].revision <= limit
  }

  /** The world restored from its parts: the identifiers must rise, no revision may exceed the counter, and nothing may
      be left over. */
  function Restored(list: seq<Object>, counters: (nat, nat), left: seq<Byte>): Option<WorldValue> {
    if IdsRise(list) && RevisionsUpTo(counters.0, list) && left == []
    then Some(WorldValue(ById(list), counters.0, counters.1)) else None
  }

  function RestoreList(count: nat, s: seq<Byte>): Option<WorldValue> {
    match TakeMany(Objects(), count, s)
    case Fail => None
    case Got(list, rest) =>
      match TakeBoth(Ints(8), Ints(8), rest)
      case Fail => None
      case Got(counters, left) => Restored(list, counters, left)
  }

  function RestoreWorld(payload: seq<Byte>): Option<WorldValue> {
    match TakeInt(8, payload)
    case Fail => None
    case Got(count, rest) => if count > MAX_OBJECTS then None else RestoreList(count, rest)
  }

  /** What a checkpoint can hold. */
  predicate Storable(w: WorldValue) {
    && |w.objects| <= MAX_OBJECTS && w.nextRevision < U64 && w.eraseRevision < U64
    && forall id | id in w.objects :: w.objects[id].id == id && ObjectFits(w.objects[id]) && w.objects[id].revision <= w.nextRevision
  }

  lemma {:induction false} RisingIds(list: seq<Object>, i: nat, j: nat)
    requires IdsRise(list) && i < j < |list|
    ensures list[i].id < list[j].id
  {
    if i + 1 < j {
      RisingIds(list, i, j - 1);
    }
    assert list[j - 1].id < list[j].id;
  }

  lemma {:induction false} MapMembers(list: seq<Object>, id: nat)
    requires id in ById(list)
    ensures ById(list)[id].id == id && ById(list)[id] in list
  {
    var init, last := list[..|list| - 1], list[|list| - 1];
    if id != last.id {
      MapMembers(init, id);
    }
  }

  /** Rising identifiers are kept apart: every object is found under its own. */
  lemma {:induction false} MapOfRising(list: seq<Object>, i: nat)
    requires IdsRise(list) && i < |list|
    ensures list[i].id in ById(list) && ById(list)[list[i].id] == list[i]
  {
    var init := list[..|list| - 1];
    if i < |init| {
      MapOfRising(init, i);
      RisingIds(list, i, |list| - 1);
    }
  }

  lemma {:induction false} MapSize(list: seq<Object>)
    requires IdsRise(list)
    ensures |ById(list)| == |list|
  {
    if list != [] {
      var init, last := list[..|list| - 1], list[|list| - 1];
      MapSize(init);
      if last.id in ById(init) {
        MapMembers(init, last.id);
        var i :| 0 <= i < |init| && init[i] == ById(init)[last.id];
        RisingIds(list, i, |list| - 1);
      }
    }
  }

  /** Every object is stored under its own identifier. */
  predicate Keyed(objects: map<nat, Object>) {
    forall id | id in objects :: objects[id].id == id
  }

  lemma OrderedEntry(w: WorldValue, i: nat)
    requires Keyed(w.objects) && i < |w.objects|
    ensures IdsInOrder(w)[i] in w.objects && ObjectsInOrder(w)[i] == w.objects[IdsInOrder(w)[i]]
    ensures ObjectsInOrder(w)[i].id == IdsInOrder(w)[i]
  {
    assert IdsInOrder(w)[i] in IdsInOrder(w);
  }

  lemma OrderedIdsRise(w: WorldValue)
    requires Keyed(w.objects)
    ensures IdsRise(ObjectsInOrder(w))
  {
    forall i | 0 < i < |w.objects|
      ensures ObjectsInOrder(w)[i - 1].id < ObjectsInOrder(w)[i].id
    {
      OrderedEntry(w, i - 1);
      OrderedEntry(w, i);
    }
  }

  lemma EntryOf(w: WorldValue, id: nat)
    requires Storable(w) && id in w.objects && IdsRise(ObjectsInOrder(w))
    ensures id in ById(ObjectsInOrder(w)) && ById(ObjectsInOrder(w))[id] == w.objects[id]
  {
    var ids, list := IdsInOrder(w), ObjectsInOrder(w);
    assert id in ids;
    var i :| 0 <= i < |ids| && ids[i] == id;
    OrderedEntry(w, i);
    MapOfRising(list, i);
  }

  lemma MapOfOrdered(w: WorldValue)
    requires Storable(w)
    ensures ById(ObjectsInOrder(w)) == w.objects
  {
    var m := ById(ObjectsInOrder(w));
    OrderedIdsRise(w);
    forall id | id in w.objects
      ensures id in m && m[id] == w.objects[id]
    {
      EntryOf(w, id);
    }
    forall id | id in m
      ensures id in w.objects
    {
      ListedIn(w, id);
    }
  }

  lemma ListedIn(w: WorldValue, id: nat)
    requires Storable(w) && id in ById(ObjectsInOrder(w))
    ensures id in w.objects
  {
    var list := ObjectsInOrder(w);
    MapMembers(list, id);
    var i :| 0 <= i < |list| && list[i] == ById(list)[id];
    OrderedEntry(w, i);
  }

  lemma ListTakesBack(w: WorldValue)
    requires Storable(w)
    ensures TakesBack(Manys(Objects(), |w.objects|), WriteMany(ObjectBytes(), ObjectsInOrder(w)), ObjectsInOrder(w))
    ensures RevisionsUpTo(w.nextRevision, ObjectsInOrder(w))
  {
    var ids, list := IdsInOrder(w), ObjectsInOrder(w);
    forall i | 0 <= i < |list|
      ensures TakesBack(Objects(), ObjectBytes()(list[i]), list[i])
      ensures list[i].revision <= w.nextRevision
    {
      assert ids[i] in ids;
      ObjectTakesBack(list[i]);
    }
    ManysTakeBack(Objects(), ObjectBytes(), list);
  }

  lemma CountersTakeBack(w: WorldValue)
    requires w.nextRevision < U64 && w.eraseRevision < U64
    ensures TakesBack(Both(Ints(8), Ints(8)), CounterBytes(w), (w.nextRevision, w.eraseRevision))
  {
    Limits();
    IntTakesBack(8, w.nextRevision);
    IntTakesBack(8, w.eraseRevision);
    BothTakeBack(Ints(8), Ints(8), Le(8, w.nextRevision), Le(8, w.eraseRevision), w.nextRevision, w.eraseRevision);
  }

  lemma CountTakenBack(count: nat, rest: seq<Byte>)
    requires count <= MAX_OBJECTS
    ensures RestoreWorld(SizeBytes(count) + rest) == RestoreList(count, rest)
  {
    Limits();
    IntTakesBack(8, count);
    assert Ints(8)(Le(8, count) + rest) == Got(count, rest);
  }

  lemma ListRestored(list: seq<Object>, counters: (nat, nat), bytes: seq<Byte>, tail: seq<Byte>)
    requires TakesBack(Manys(Objects(), |list|), bytes, list) && TakesBack(Both(Ints(8), Ints(8)), tail, counters)
    ensures RestoreList(|list|, bytes + tail) == Restored(list, counters, [])
  {
    assert Manys(Objects(), |list|)(bytes + tail) == Got(list, tail);
    AllTaken(Both(Ints(8), Ints(8)), tail, counters);
  }

  lemma StorableReadsBack(w: WorldValue)
    requires Storable(w)
    ensures RestoreWorld(WorldBytes(w)) == Some(w)
  {
    var list, counters := ObjectsInOrder(w), (w.nextRevision, w.eraseRevision);
    var bytes, tail := WriteMany(ObjectBytes(), list), CounterBytes(w);
    ListTakesBack(w);
    CountersTakeBack(w);
    ListRestored(list, counters, bytes, tail);
    OrderedIdsRise(w);
    MapOfOrdered(w);
    CountTakenBack(|w.objects|, bytes + tail);
  }

  /** Whatever is accepted is within the limits. */
  lemma RestoredIsStorable(payload: seq<Byte>)
    requires RestoreWorld(payload).Some?
    ensures Storable(RestoreWorld(payload).value)
  {
    Limits();
    var count, rest := TakeInt(8, payload).value, TakeInt(8, payload).rest;
    ObjectInRange();
    ManyYield(Objects(), ObjectFits, count, rest);
    var list := TakeMany(Objects(), count, rest).value;
    MapSize(list);
    forall id | id in ById(list)
      ensures ById(list)[id].id == id && ObjectFits(ById(list)[id])
      ensures ById(list)[id].revision <= RestoreWorld(payload).value.nextRevision
    {
      MapMembers(list, id);
      var i :| 0 <= i < |list| && list[i] == ById(list)[id];
    }
  }

  /** Encoding a world and restoring gives the world back, all bytes consumed, exactly when the world is within the
      limits. */
  lemma WorldRoundTripIff(w: WorldValue)
    ensures RestoreWorld(WorldBytes(w)) == Some(w) <==> Storable(w)
  {
    if Storable(w) {
      StorableReadsBack(w);
    } else if RestoreWorld(WorldBytes(w)) == Some(w) {
      RestoredIsStorable(WorldBytes(w));
    }
  }
}
