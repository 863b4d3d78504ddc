/** Writing the checkpoint payload of a frozen world and restoring a world from one, value by value. */
module WorldProvider {
  import opened Options
  import opened LeBytes
  import opened Parsing
  import opened WorldModel
  import opened BagCodec
  import opened TextOrder
  import opened WorldCheckpoint
  import opened WorldStorage

  // ---- Writing ----

  method WriteRelation(writer: PayloadWriter, r: Relation)
    modifies writer
    ensures writer.bytes == old(writer.bytes) + RelationBytes()(r)
  {
    writer.Int(8, r.target);
    ghost var head := writer.bytes;
    writer.Text(4, r.kind);
    WriteBag(writer, FORM, r.attributes);
    Appended(head, TextBytes(4, r.kind), BagBytes(FORM, r.attributes));
    Appended(old(writer.bytes), Le(8, r.target), TextBytes(4, r.kind) + BagBytes(FORM, r.attributes));
  }

  method WriteRelations(writer: PayloadWriter, relations: seq<Relation>)
    modifies writer
    ensures writer.bytes == old(writer.bytes) + WriteCounted(4, RelationBytes(), relations)
  {
    ghost var write := RelationBytes();
    WriteCount(writer, 4, |relations|);
    ghost var head := writer.bytes;
    for i := 0 to |relations|
      invariant writer.bytes == head + WriteMany(write, relations[..i])
    {
      WriteRelation(writer, relations[i]);
      NextWritten(head, write, relations, i);
    }
    AllWritten(old(writer.bytes), 4, write, relations);
  }

  method WriteTexts(writer: PayloadWriter, texts: seq<Text>)
    modifies writer
    ensures writer.bytes == old(writer.bytes) + WriteCounted(4, TextWriter(), texts)
  {
    ghost var write := TextWriter();
    WriteCount(writer, 4, |texts|);
    ghost var head := writer.bytes;
    for i := 0 to |texts|
      invariant writer.bytes == head + WriteMany(write, texts[..i])
    {
      writer.Text(4, texts[i]);
      NextWritten(head, write, texts, i);
    }
    AllWritten(old(writer.bytes), 4, write, texts);
  }

  method WriteNames(writer: PayloadWriter, o: Object)
    modifies writer
    ensures writer.bytes == old(writer.bytes) + (TextBytes(4, o.geometryRef) + TextBytes(4, o.semanticType))
  {
    writer.Text(4, o.geometryRef);
    writer.Text(4, o.semanticType);
    Appended(old(writer.bytes), TextBytes(4, o.geometryRef), TextBytes(4, o.semanticType));
  }

  method WriteBags(writer: PayloadWriter, o: Object)
    modifies writer
    ensures writer.bytes == old(writer.bytes) + (BagBytes(FORM, o.properties) + BagBytes(FORM, o.state))
  {
    WriteBag(writer, FORM, o.properties);
    WriteBag(writer, FORM, o.state);
    Appended(old(writer.bytes), BagBytes(FORM, o.properties), BagBytes(FORM, o.state));
  }

  method WriteLinks(writer: PayloadWriter, o: Object)
    modifies writer
    ensures writer.bytes == old(writer.bytes) + LinksBytes(o)
  {
    WriteRelations(writer, o.relations);
    WriteTexts(writer, o.capabilities);
    Appended(old(writer.bytes), WriteCounted(4, RelationBytes(), o.relations), WriteCounted(4, TextWriter(), o.capabilities));
  }

  method WriteContent(writer: PayloadWriter, o: Object)
    modifies writer
    ensures writer.bytes == old(writer.bytes) + ContentBytes(o)
  {
    WriteNames(writer, o);
    ghost var head := writer.bytes;
    WriteBags(writer, o);
    WriteLinks(writer, o);
    Appended(head, BagBytes(FORM, o.properties) + BagBytes(FORM, o.state), LinksBytes(o));
    Appended(old(writer.bytes), TextBytes(4, o.geometryRef) + TextBytes(4, o.semanticType),
             (BagBytes(FORM, o.properties) + BagBytes(FORM, o.state)) + LinksBytes(o));
  }

  method WriteObject(writer: PayloadWriter, o: Object)
    modifies writer
    ensures writer.bytes == old(writer.bytes) + ObjectBytes()(o)
  {
    WriteInts(writer, 8, [o.id, o.version, o.revision]);
    ghost var ids, code, place, content :=
      WriteMany(IntBytes(8), [o.id, o.version, o.revision]), Le(1, Code(o.lifecycle)), WriteMany(IntBytes(8), [o.x, o.y, o.z]), ContentBytes(o);
    writer.Int(1, Code(o.lifecycle));
    ghost var head := writer.bytes;
    WriteInts(writer, 8, [o.x, o.y, o.z]);
    WriteContent(writer, o);
    Appended(head, place, content);
    Appended(old(writer.bytes) + ids, code, place + content);
    Appended(old(writer.bytes), ids, code + (place + content));
  }

  method WriteObjects(writer: PayloadWriter, objects: seq<Object>)
    modifies writer
    ensures writer.bytes == old(writer.bytes) + WriteMany(ObjectBytes(), objects)
  {
    ghost var head, write := writer.bytes, ObjectBytes();
    for i := 0 to |objects|
      invariant writer.bytes == head + WriteMany(write, objects[..i])
    {
      WriteObject(writer, objects[i]);
      NextWritten(head, write, objects, i);
    }
    assert objects[..|objects|] == objects;
  }

  method WriteSize(writer: PayloadWriter, n: nat)
    modifies writer
    ensures writer.bytes == old(writer.bytes) + SizeBytes(n)
  {
    writer.Int(8, n);
  }

  method WriteCounters(writer: PayloadWriter, nextRevision: nat, eraseRevision: nat)
    modifies writer
    ensures writer.bytes == old(writer.bytes) + (Le(8, nextRevision) + Le(8, eraseRevision))
  {
    writer.Int(8, nextRevision);
    writer.Int(8, eraseRevision);
    Appended(old(writer.bytes), Le(8, nextRevision), Le(8, eraseRevision));
  }

  /** What a frozen world shows. */
  ghost function Shown(s: FrozenWorld): WorldValue {
    WorldValue(s.contents, s.nextRevision, s.eraseRevision)
  }

  method ObjectsAt(s: FrozenWorld, ids: seq<nat>) returns (list: seq<Object>)
    requires s.Intact() && forall id | id in ids :: id in s.contents
    ensures list == ObjectsOf(s.contents, ids)
  {
    list := [];
    for i := 0 to |ids|
      invariant |list| == i && forall j | 0 <= j < i :: list[j] == s.contents[ids[j]]
    {
      assert ids[i] in ids;
      list := list + [s.objects[ids[i]].cell.value];
    }
  }

  /** The objects' pointers sorted, then what they point to. */
  method OrderedObjects(s: FrozenWorld) returns (list: seq<Object>)
    requires s.Intact()
    ensures list == ObjectsInOrder(Shown(s))
  {
    var ids := Walk(IdLe, s.objects.Keys);
    assert ids == IdsInOrder(Shown(s));
    list := ObjectsAt(s, ids);
  }

  method WriteParts(writer: PayloadWriter, s: FrozenWorld)
    requires s.Intact()
    modifies writer
    ensures writer.bytes == old(writer.bytes) + (WriteMany(ObjectBytes(), ObjectsInOrder(Shown(s))) + CounterBytes(Shown(s)))
  {
    var list := OrderedObjects(s);
    ghost var body := WriteMany(ObjectBytes(), list);
    WriteObjects(writer, list);
    WriteCounters(writer, s.nextRevision, s.eraseRevision);
    Appended(old(writer.bytes), body, CounterBytes(Shown(s)));
  }

  lemma ShownSize(s: FrozenWorld)
    requires s.Intact()
    ensures |s.objects| == |s.contents|
  {
    assert s.objects.Keys == s.contents.Keys && |s.objects| == |s.objects.Keys| && |s.contents| == |s.contents.Keys|;
  }

  /** The world's payload. */
  method EncodeWorld(s: FrozenWorld) returns (payload: seq<Byte>)
    requires s.Intact()
    ensures payload == WorldBytes(Shown(s))
  {
    var writer := new PayloadWriter();
    ShownSize(s);
    WriteSize(writer, |s.objects|);
    ghost var head := writer.bytes;
    WriteParts(writer, s);
    assert head == [] + SizeBytes(|s.contents|) == SizeBytes(|s.contents|);
    payload := writer.bytes;
  }

  // ---- Reading ----

  method ReadRelation(reader: PayloadReader) returns (relation: Option<Relation>)
    requires reader.Valid()
    modifies reader
    ensures reader.Valid() && Follows(relation, Relations()(old(reader.Rest())), reader.Rest())
  {
    var target := reader.Int(8);
    if target == None {
      return None;
    }
    var kind := reader.Text(4, MAX_STRING_BYTES);
    if kind == None {
      return None;
    }
    var attributes := ReadBag(reader, FORM, MAX_ITEMS);
    relation := if attributes == None then None else Some(Relation(target.value, kind.value, attributes.value));
  }

  method ReadRelations(reader: PayloadReader) returns (relations: Option<seq<Relation>>)
    requires reader.Valid()
    modifies reader
    ensures reader.Valid() && Follows(relations, Counteds(4, Relations(), MAX_ITEMS)(old(reader.Rest())), reader.Rest())
  {
    var count := reader.Int(4);
    if count == None || count.value > MAX_ITEMS {
      return None;
    }
    ghost var start, take := reader.Rest(), Relations();
    var list: seq<Relation> := [];
    for i := 0 to count.value
      invariant reader.Valid() && TakeMany(take, i, start) == Got(list, reader.Rest())
    {
      var item := ReadRelation(reader);
      if item == None {
        ManyFails(take, start, i, count.value);
        return None;
      }
      list := list + [item.value];
    }
    relations := Some(list);
  }

  method ReadTexts(reader: PayloadReader) returns (texts: Option<seq<Text>>)
    requires reader.Valid()
    modifies reader
    ensures reader.Valid() && Follows(texts, Counteds(4, Texts(4, MAX_STRING_BYTES), MAX_ITEMS)(old(reader.Rest())), reader.Rest())
  {
    var count := reader.Int(4);
    if count == None || count.value > MAX_ITEMS {
      return None;
    }
    ghost var start, take := reader.Rest(), Texts(4, MAX_STRING_BYTES);
    var list: seq<Text> := [];
    for i := 0 to count.value
      invariant reader.Valid() && TakeMany(take, i, start) == Got(list, reader.Rest())
    {
      var item := reader.Text(4, MAX_STRING_BYTES);
      if item == None {
        ManyFails(take, start, i, count.value);
        return None;
      }
      list := list + [item.value];
    }
    texts := Some(list);
  }

  method ReadNames(reader: PayloadReader) returns (names: Option<(Text, Text)>)
    requires reader.Valid()
    modifies reader
    ensures reader.Valid()
    ensures Follows(names, Both(Texts(4, MAX_STRING_BYTES), Texts(4, MAX_STRING_BYTES))(old(reader.Rest())), reader.Rest())
  {
    var a := reader.Text(4, MAX_STRING_BYTES);
    if a == None {
      return None;
    }
    var b := reader.Text(4, MAX_STRING_BYTES);
    names := if b == None then None else Some((a.value, b.value));
  }

  method ReadBags(reader: PayloadReader) returns (bags: Option<(Bag, Bag)>)
    requires reader.Valid()
    modifies reader
    ensures reader.Valid() && Follows(bags, Both(Bags(FORM, MAX_ITEMS), Bags(FORM, MAX_ITEMS))(old(reader.Rest())), reader.Rest())
  {
    var a := ReadBag(reader, FORM, MAX_ITEMS);
    if a == None {
      return None;
    }
    var b := ReadBag(reader, FORM, MAX_ITEMS);
    bags := if b == None then None else Some((a.value, b.value));
  }

  method ReadLinks(reader: PayloadReader) returns (links: Option<Links>)
    requires reader.Valid()
    modifies reader
    ensures reader.Valid() && Follows(links, LinksTaker()(old(reader.Rest())), reader.Rest())
  {
    var relations := ReadRelations(reader);
    if relations == None {
      return None;
    }
    var texts := ReadTexts(reader);
    links := if texts == None then None else Some((relations.value, texts.value));
  }

  method ReadContent(reader: PayloadReader) returns (content: Option<Content>)
    requires reader.Valid()
    modifies reader
    ensures reader.Valid() && Follows(content, ContentTaker()(old(reader.Rest())), reader.Rest())
  {
    var names := ReadNames(reader);
    if names == None {
      return None;
    }
    var bags := ReadBags(reader);
    if bags == None {
      return None;
    }
    var links := ReadLinks(reader);
    content := if links == None then None else Some((names.value, (bags.value, links.value)));
  }

  method ReadRaw(reader: PayloadReader) returns (raw: Option<RawObject>)
    requires reader.Valid()
    modifies reader
    ensures reader.Valid() && Follows(raw, RawObjects()(old(reader.Rest())), reader.Rest())
  {
    var ids := ReadInts(reader, 8, 3);
    if ids == None {
      return None;
    }
    var lifecycle := reader.Int(1);
    if lifecycle == None {
      return None;
    }
    var place := ReadInts(reader, 8, 3);
    if place == None {
      return None;
    }
    var content := ReadContent(reader);
    raw := if content == None then None else Some((ids.value, (lifecycle.value, (place.value, content.value))));
  }

  method ReadObject(reader: PayloadReader) returns (object_: Option<Object>)
    requires reader.Valid()
    modifies reader
    ensures reader.Valid() && Follows(object_, Objects()(old(reader.Rest())), reader.Rest())
  {
    var raw := ReadRaw(reader);
    object_ := if raw == None || !RawOk(raw.value) then None else Some(ToObject(raw.value));
  }

  lemma UnorderedStays(start: seq<Byte>, i: nat, count: nat, list: seq<Object>, rest: seq<Byte>)
    requires i <= count && TakeMany(Objects(), i, start) == Got(list, rest) && !IdsRise(list)
    ensures RestoreList(count, start) == None
  {
    if TakeMany(Objects(), count, start).Got? {
      ManyPrefix(Objects(), start, i, count);
      var all := TakeMany(Objects(), count, start).value;
      var k :| 0 < k < |list| && list[k - 1].id >= list[k].id;
      assert all[k - 1] == list[k - 1] && all[k] == list[k];
    }
  }

  lemma Unordered(list: seq<Object>, o: Object)
    requires list != [] && o.id <= list[|list| - 1].id
    ensures !IdsRise(list + [o])
  {
    assert (list + [o])[|list|] == o && (list + [o])[|list| - 1] == list[|list| - 1];
  }

  /** The objects in turn; `revision` is the highest seen. */
  method ReadObjects(reader: PayloadReader, count: nat) returns (list: Option<seq<Object>>, revision: nat)
    requires reader.Valid()
    modifies reader
    ensures reader.Valid() && list == None ==> RestoreList(count, old(reader.Rest())) == None
    ensures reader.Valid()
    ensures list.Some? ==> TakeMany(Objects(), count, old(reader.Rest())) == Got(list.value, reader.Rest()) && IdsRise(list.value)
    ensures list.Some? ==> forall n: nat :: RevisionsUpTo(n, list.value) <==> revision <= n
  {
    ghost var start, take := reader.Rest(), Objects();
    var objects: seq<Object> := [];
    revision := 0;
    for i := 0 to count
      invariant reader.Valid() && TakeMany(take, i, start) == Got(objects, reader.Rest())
      invariant |objects| == i && IdsRise(objects)
      invariant forall n: nat :: RevisionsUpTo(n, objects) <==> revision <= n
    {
      var item := ReadObject(reader);
      if item == None {
        ManyFails(take, start, i, count);
        return None, revision;
      }
      HighestRevision(objects, item.value, revision);
      if i > 0 && item.value.id <= objects[i - 1].id {
        Unordered(objects, item.value);
        UnorderedStays(start, i + 1, count, objects + [item.value], reader.Rest());
        return None, revision;
      }
      objects := objects + [item.value];
      revision := if item.value.revision > revision then item.value.revision else revision;
    }
    list := Some(objects);
  }

  lemma HighestRevision(list: seq<Object>, o: Object, revision: nat)
    requires forall n: nat :: RevisionsUpTo(n, list) <==> revision <= n
    ensures forall n: nat :: RevisionsUpTo(n, list + [o]) <==> (if o.revision > revision then o.revision else revision) <= n
  {
    forall n: nat
      ensures RevisionsUpTo(n, list + [o]) <==> RevisionsUpTo(n, list) && o.revision <= n
    {
      if RevisionsUpTo(n, list + [o]) {
        forall i | 0 <= i < |list|
          ensures list[i].revision <= n
        {
          assert (list + [o])[i] == list[i];
        }
        assert (list + [o])[|list|] == o;
      }
    }
  }

  /** The parts of a payload that is in order. */
  method ReadWorld(payload: seq<Byte>) returns (parts: Option<(seq<Object>, nat, nat)>)
    ensures parts == None ==> RestoreWorld(payload) == None
    ensures parts.Some? ==>
              RestoreWorld(payload) == Some(WorldValue(ById(parts.value.0), parts.value.1, parts.value.2))
  {
    var reader := new PayloadReader(payload);
    var count := reader.Int(8);
    if count == None || count.value > MAX_OBJECTS {
      return None;
    }
    var list, revision := ReadObjects(reader, count.value);
    if list == None {
      return None;
    }
    var next := reader.Int(8);
    if next == None || next.value < revision {
      return None;
    }
    var erased := reader.Int(8);
    if erased == None || reader.offset != |reader.bytes| {
      return None;
    }
    assert reader.Rest() == [];
    parts := Some((list.value, next.value, erased.value));
  }

  /** A world restored from a payload; it keeps its contents unless all of the payload is in order. */
  method RestoreFrom(world: World, payload: seq<Byte>) returns (ok: bool)
    requires world.Valid()
    modifies world
    ensures world.Valid() && world.frozen == old(world.frozen)
    ensures ok == RestoreWorld(payload).Some?
    ensures world.Value() == if ok then RestoreWorld(payload).value else old(world.Value())
  {
    var parts := ReadWorld(payload);
    ok := parts.Some?;
    if ok {
      world.Restore(parts.value.0, parts.value.1, parts.value.2);
    }
  }

  /** Encoding a frozen world and restoring from the payload: the other world becomes what was frozen exactly when
      that is within the limits. */
  method SaveAndRestore(s: FrozenWorld, world: World) returns (ok: bool)
    requires s.Intact() && world.Valid()
    modifies world
    ensures ok && world.Value() == Shown(s) <==> Storable(Shown(s))
  {
    var payload := EncodeWorld(s);
    ok := RestoreFrom(world, payload);
    WorldRoundTripIff(Shown(s));
  }
}
