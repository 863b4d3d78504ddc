/** Property values and bags of properties in binary payloads. */
module BagCodec {
  import opened Integers
  import opened Options
  import opened LeBytes
  import opened Parsing
  import opened WorldModel
  import opened TextOrder

  const TAG_INT := 0
  const TAG_DOUBLE := 1
  const TAG_BOOL := 2
  const TAG_STRING := 3

  /** How texts and bags are written: the bytes of a text's length, the longest text read, the bytes of a bag's size,
      and whether every property must have a name. */
  datatype TextForm = TextForm(n: nat, limit: nat, size: nat, named: bool) {
    predicate Fits(text: Text) {
      |text| <= limit && |text| < Limit(n)
    }
  }

  function ValueBytes(form: TextForm, v: PropertyValue): seq<Byte> {
    match v
    case Integer(bits) => Le(1, TAG_INT) + Le(8, bits)
    case Number(bits) => Le(1, TAG_DOUBLE) + Le(8, bits)
    case Flag(on) => Le(1, TAG_BOOL) + Le(1, if on then 1 else 0)
    case Words(text) => Le(1, TAG_STRING) + TextBytes(form.n, text)
  }

  function TakeValue(form: TextForm, s: seq<Byte>): Parsed<PropertyValue> {
    match TakeInt(1, s)
    case Fail => Fail
    case Got(tag, rest) => TakeTagged(form, tag, rest)
  }

  /** The value after its tag. */
  function TakeTagged(form: TextForm, tag: nat, s: seq<Byte>): Parsed<PropertyValue> {
    if tag == TAG_INT then TakeMapped(Ints(8), _ => true, b => Integer(b), s)
    else if tag == TAG_DOUBLE then TakeMapped(Ints(8), _ => true, b => Number(b), s)
    else if tag == TAG_BOOL then TakeMapped(Ints(1), b => b <= 1, b => Flag(b != 0), s)
    else if tag == TAG_STRING then TakeMapped(Texts(form.n, form.limit), _ => true, t => Words(t), s)
    else Fail
  }

  function Values(form: TextForm): Taker<PropertyValue> {
    (s: seq<Byte>) => TakeValue(form, s)
  }

  predicate ValueFits(form: TextForm, v: PropertyValue) {
    match v
    case Integer(bits) => bits < U64
    case Number(bits) => bits < U64
    case Flag(_) => true
    case Words(text) => form.Fits(text)
  }

  lemma TagTakesBack(form: TextForm, tag: nat, body: seq<Byte>, v: PropertyValue)
    requires tag < 256 && forall rest :: TakeTagged(form, tag, body + rest) == Got(v, rest)
    ensures TakesBack(Values(form), Le(1, tag) + body, v)
  {
    assert Limit(1) == 256;
    IntTakesBack(1, tag);
    forall rest
      ensures TakeValue(form, (Le(1, tag) + body) + rest) == Got(v, rest)
    {
      assert (Le(1, tag) + body) + rest == Le(1, tag) + (body + rest);
      assert Ints(1)(Le(1, tag) + (body + rest)) == Got(tag, body + rest);
    }
  }

  lemma BitsTakeBack(form: TextForm, bits: nat)
    requires bits < U64
    ensures TakesBack(Values(form), Le(1, TAG_INT) + Le(8, bits), Integer(bits))
    ensures TakesBack(Values(form), Le(1, TAG_DOUBLE) + Le(8, bits), Number(bits))
  {
    Limits();
    var body := Le(8, bits);
    IntTakesBack(8, bits);
    forall rest
      ensures TakeTagged(form, TAG_INT, body + rest) == Got(Integer(bits), rest)
      ensures TakeTagged(form, TAG_DOUBLE, body + rest) == Got(Number(bits), rest)
    {
      assert Ints(8)(body + rest) == Got(bits, rest);
    }
    TagTakesBack(form, TAG_INT, body, Integer(bits));
    TagTakesBack(form, TAG_DOUBLE, body, Number(bits));
  }

  lemma FlagTakesBack(form: TextForm, on: bool)
    ensures TakesBack(Values(form), Le(1, TAG_BOOL) + Le(1, if on then 1 else 0), Flag(on))
  {
    var bit := if on then 1 else 0;
    assert Limit(1) == 256;
    IntTakesBack(1, bit);
    forall rest
      ensures TakeTagged(form, TAG_BOOL, Le(1, bit) + rest) == Got(Flag(on), rest)
    {
      assert Ints(1)(Le(1, bit) + rest) == Got(bit, rest);
    }
    TagTakesBack(form, TAG_BOOL, Le(1, bit), Flag(on));
  }

  lemma WordsTakeBack(form: TextForm, text: Text)
    requires form.Fits(text)
    ensures TakesBack(Values(form), Le(1, TAG_STRING) + TextBytes(form.n, text), Words(text))
  {
    var body := TextBytes(form.n, text);
    TextTakesBack(form.n, form.limit, text);
    forall rest
      ensures TakeTagged(form, TAG_STRING, body + rest) == Got(Words(text), rest)
    {
      assert Texts(form.n, form.limit)(body + rest) == Got(text, rest);
    }
    TagTakesBack(form, TAG_STRING, body, Words(text));
  }

  lemma ValueTakesBack(form: TextForm, v: PropertyValue)
    requires ValueFits(form, v)
    ensures TakesBack(Values(form), ValueBytes(form, v), v)
  {
    match v
    case Integer(bits) => BitsTakeBack(form, bits);
    case Number(bits) => BitsTakeBack(form, bits);
    case Flag(on) => FlagTakesBack(form, on);
    case Words(text) => WordsTakeBack(form, text);
  }

  lemma ValueInRange(form: TextForm)
    ensures Yields(Values(form), v => ValueFits(form, v))
  {
    Limits();
  }

  // ---- Bags ----

  type Item = (Text, PropertyValue)

  function ItemBytes(form: TextForm): Item -> seq<Byte> {
    (item: Item) => TextBytes(form.n, item.0) + ValueBytes(form, item.1)
  }

  predicate NameOk(form: TextForm, key: Text) {
    form.named ==> key != []
  }

  function Keys(form: TextForm): Taker<Text> {
    Mapped(Texts(form.n, form.limit), key => NameOk(form, key), (key: Text) => key)
  }

  function Items(form: TextForm): Taker<Item> {
    Both(Keys(form), Values(form))
  }

  predicate ItemFits(form: TextForm, item: Item) {
    form.Fits(item.0) && NameOk(form, item.0) && ValueFits(form, item.1)
  }

  lemma ItemTakesBack(form: TextForm, item: Item)
    requires ItemFits(form, item)
    ensures TakesBack(Items(form), ItemBytes(form)(item), item)
  {
    TextTakesBack(form.n, form.limit, item.0);
    MappedTakeBack(Texts(form.n, form.limit), key => NameOk(form, key), (key: Text) => key, TextBytes(form.n, item.0), item.0);
    ValueTakesBack(form, item.1);
    BothTakeBack(Keys(form), Values(form), TextBytes(form.n, item.0), ValueBytes(form, item.1), item.0, item.1);
  }

  lemma ItemInRange(form: TextForm)
    ensures Yields(Items(form), item => ItemFits(form, item))
  {
    ValueInRange(form);
    forall s | Items(form)(s).Got?
      ensures ItemFits(form, Items(form)(s).value)
    {
      var key := TakeText(form.n, form.limit, s);
      assert Keys(form)(s).Got? && key.Got?;
      assert Values(form)(key.rest).Got?;
    }
  }

  predicate DistinctKeys(items: seq<Item>) {
    forall i, j | 0 <= i < j < |items| :: items[i].0 != items[j].0
  }

  function BagFrom(items: seq<Item>): Bag {
    if items == [] then map[] else BagFrom(items[..|items| - 1])[items[|items| - 1].0 := items[|items| - 1].1]
  }

  function TakeBag(form: TextForm, limit: nat, s: seq<Byte>): Parsed<Bag> {
    TakeMapped(Counteds(form.size, Items(form), limit), (items: seq<Item>) => DistinctKeys(items), (items: seq<Item>) => BagFrom(items), s)
  }

  function Bags(form: TextForm, limit: nat): Taker<Bag> {
    (s: seq<Byte>) => TakeBag(form, limit, s)
  }

  predicate ByteLess(a: Byte, b: Byte) {
    a < b
  }

  /** The order in which a bag is walked. */
  predicate KeyLe(a: Text, b: Text) {
    LexLe(ByteLess, a, b)
  }

  lemma KeysLinear()
    ensures Linear(KeyLe)
  {
    LexIsLinear(ByteLess, KeyLe);
  }

  /** The items of some keys of a bag. */
  function ItemsOf(bag: Bag, keys: seq<Text>): (items: seq<Item>)
    requires forall k | k in keys :: k in bag
    ensures |items| == |keys|
  {
    seq(|keys|, i requires 0 <= i < |keys| => (keys[i], bag[keys[i]]))
  }

  ghost function KeysInOrder(bag: Bag): (keys: seq<Text>)
    ensures forall k :: k in keys <==> k in bag
  {
    KeysLinear();
    InOrder(KeyLe, bag.Keys)
  }

  /** A bag's items in key order. */
  ghost function BagItems(bag: Bag): seq<Item> {
    ItemsOf(bag, KeysInOrder(bag))
  }

  lemma BagItemsDistinct(bag: Bag)
    ensures |BagItems(bag)| == |bag| && DistinctKeys(BagItems(bag))
  {
    KeysLinear();
    var keys := InOrder(KeyLe, bag.Keys);
    assert |bag| == |bag.Keys|;
  }

  lemma BagItemsMembers(bag: Bag, i: nat)
    requires i < |BagItems(bag)|
    ensures BagItems(bag)[i].0 in bag && BagItems(bag)[i].1 == bag[BagItems(bag)[i].0]
  {
    assert KeysInOrder(bag)[i] in KeysInOrder(bag);
  }

  lemma BagItemsCover(bag: Bag, k: Text)
    requires k in bag
    ensures exists i :: 0 <= i < |BagItems(bag)| && BagItems(bag)[i].0 == k
  {
    var keys := KeysInOrder(bag);
    assert k in keys;
    var i :| 0 <= i < |keys| && keys[i] == k;
    assert BagItems(bag)[i].0 == k;
  }

  predicate HasKey(items: seq<Item>, k: Text) {
    exists i :: 0 <= i < |items| && items[i].0 == k
  }

  lemma {:induction false} BagKeys(items: seq<Item>, k: Text)
    ensures k in BagFrom(items) <==> HasKey(items, k)
  {
    if items != [] {
      var init, last := items[..|items| - 1], items[|items| - 1];
      BagKeys(init, k);
      if HasKey(items, k) && k != last.0 {
        var i :| 0 <= i < |items| && items[i].0 == k;
        assert init[i].0 == k;
      }
      if HasKey(init, k) {
        var i :| 0 <= i < |init| && init[i].0 == k;
        assert items[i].0 == k;
      }
      if k == last.0 {
        assert items[|items| - 1].0 == k;
      }
    }
  }

  lemma {:induction false} BagEntry(items: seq<Item>, i: nat)
    requires DistinctKeys(items) && i < |items|
    ensures items[i].0 in BagFrom(items) && BagFrom(items)[items[i].0] == items[i].1
  {
    var init, last := items[..|items| - 1], items[|items| - 1];
    if i < |init| {
      BagEntry(init, i);
      assert init[i] == items[i] && items[i].0 != last.0;
    }
  }

  lemma {:induction false} BagSize(items: seq<Item>)
    requires DistinctKeys(items)
    ensures |BagFrom(items)| == |items|
  {
    if items != [] {
      var init, last := items[..|items| - 1], items[|items| - 1];
      BagSize(init);
      BagKeys(init, last.0);
      forall i | 0 <= i < |init|
        ensures init[i].0 != last.0
      {
        assert items[i].0 != items[|items| - 1].0;
      }
    }
  }

  lemma BagOfItems(bag: Bag)
    ensures BagFrom(BagItems(bag)) == bag
  {
    var items, b := BagItems(bag), BagFrom(BagItems(bag));
    BagItemsDistinct(bag);
    forall k
      ensures k in b <==> k in bag
      ensures k in b ==> b[k] == bag[k]
    {
      BagKeys(items, k);
      if HasKey(items, k) {
        var i :| 0 <= i < |items| && items[i].0 == k;
        BagItemsMembers(bag, i);
        BagEntry(items, i);
      }
      if k in bag {
        BagItemsCover(bag, k);
      }
    }
  }

  ghost function BagBytes(form: TextForm, bag: Bag): seq<Byte> {
    WriteCounted(form.size, ItemBytes(form), BagItems(bag))
  }

  predicate BagFits(form: TextForm, limit: nat, bag: Bag) {
    |bag| <= limit && |bag| < Limit(form.size) && forall k | k in bag :: ItemFits(form, (k, bag[k]))
  }

  lemma BagTakesBack(form: TextForm, limit: nat, bag: Bag)
    requires BagFits(form, limit, bag)
    ensures TakesBack(Bags(form, limit), BagBytes(form, bag), bag)
  {
    var items := BagItems(bag);
    BagItemsDistinct(bag);
    forall i | 0 <= i < |items|
      ensures TakesBack(Items(form), ItemBytes(form)(items[i]), items[i])
    {
      BagItemsMembers(bag, i);
      assert ItemFits(form, (items[i].0, bag[items[i].0]));
      ItemTakesBack(form, items[i]);
    }
    CountedTakeBack(form.size, Items(form), ItemBytes(form), limit, items);
    BagOfItems(bag);
    MappedTakeBack(Counteds(form.size, Items(form), limit), (items: seq<Item>) => DistinctKeys(items), (items: seq<Item>) => BagFrom(items),
                   BagBytes(form, bag), items);
  }

  lemma BagInRange(form: TextForm, limit: nat)
    ensures Yields(Bags(form, limit), bag => BagFits(form, limit, bag))
  {
    ItemInRange(form);
    CountedYield(form.size, Items(form), item => ItemFits(form, item), limit);
    forall s | TakeBag(form, limit, s).Got?
      ensures BagFits(form, limit, TakeBag(form, limit, s).value)
    {
      var items := TakeCounted(form.size, Items(form), limit, s).value;
      assert Counteds(form.size, Items(form), limit)(s).Got?;
      BagSize(items);
      var bag := BagFrom(items);
      forall k | k in bag
        ensures ItemFits(form, (k, bag[k]))
      {
        BagKeys(items, k);
        var i :| 0 <= i < |items| && items[i].0 == k;
        BagEntry(items, i);
        assert ItemFits(form, items[i]);
      }
    }
  }

  // ---- Writing ----

  method WriteTagged(writer: PayloadWriter, tag: nat, n: nat, value: nat)
    modifies writer
    ensures writer.bytes == old(writer.bytes) + (Le(1, tag) + Le(n, value))
  {
    writer.Int(1, tag);
    writer.Int(n, value);
    Appended(old(writer.bytes), Le(1, tag), Le(n, value));
  }

  method WriteValue(writer: PayloadWriter, form: TextForm, v: PropertyValue)
    modifies writer
    ensures writer.bytes == old(writer.bytes) + ValueBytes(form, v)
  {
    match v
    case Integer(bits) => WriteTagged(writer, TAG_INT, 8, bits);
    case Number(bits) => WriteTagged(writer, TAG_DOUBLE, 8, bits);
    case Flag(on) => WriteTagged(writer, TAG_BOOL, 1, if on then 1 else 0);
    case Words(text) =>
      writer.Int(1, TAG_STRING);
      writer.Text(form.n, text);
      Appended(old(writer.bytes), Le(1, TAG_STRING), TextBytes(form.n, text));
  }

  method WriteItem(writer: PayloadWriter, form: TextForm, item: Item)
    modifies writer
    ensures writer.bytes == old(writer.bytes) + ItemBytes(form)(item)
  {
    writer.Text(form.n, item.0);
    WriteValue(writer, form, item.1);
    Appended(old(writer.bytes), TextBytes(form.n, item.0), ValueBytes(form, item.1));
  }

  method WriteBag(writer: PayloadWriter, form: TextForm, bag: Bag)
    modifies writer
    ensures writer.bytes == old(writer.bytes) + BagBytes(form, bag)
  {
    KeysLinear();
    var keys := Walk(KeyLe, bag.Keys);
    WriteCount(writer, form.size, |bag|);
    BagItemsDistinct(bag);
    ghost var items := BagItems(bag);
    assert keys == KeysInOrder(bag);
    ghost var head := writer.bytes;
    for i := 0 to |keys|
      invariant writer.bytes == head + WriteMany(ItemBytes(form), items[..i])
    {
      assert keys[i] in keys;
      WriteNext(writer, form, (keys[i], bag[keys[i]]), items, i, head, ItemBytes(form));
    }
    AllWritten(old(writer.bytes), form.size, ItemBytes(form), items);
  }

  method WriteCount(writer: PayloadWriter, n: nat, count: nat)
    modifies writer
    ensures writer.bytes == old(writer.bytes) + CountBytes(n, count)
  {
    writer.Int(n, count);
  }

  method WriteNext(writer: PayloadWriter, form: TextForm, item: Item, ghost items: seq<Item>, ghost i: nat, ghost head: seq<Byte>,
                   ghost write: Item -> seq<Byte>)
    requires i < |items| && item == items[i] && write == ItemBytes(form) && writer.bytes == head + WriteMany(write, items[..i])
    modifies writer
    ensures writer.bytes == head + WriteMany(write, items[..i + 1])
  {
    WriteItem(writer, form, item);
    NextWritten(head, write, items, i);
  }

  // ---- Reading ----

  method ReadValue(reader: PayloadReader, form: TextForm) returns (value: Option<PropertyValue>)
    requires reader.Valid()
    modifies reader
    ensures reader.Valid() && Follows(value, TakeValue(form, old(reader.Rest())), reader.Rest())
  {
    var tag := reader.Int(1);
    if tag == None {
      return None;
    }
    if tag.value == TAG_INT || tag.value == TAG_DOUBLE {
      var bits := reader.Int(8);
      if bits.Some? {
        value := Some(if tag.value == TAG_INT then Integer(bits.value) else Number(bits.value));
      } else {
        value := None;
      }
    } else if tag.value == TAG_BOOL {
      var item := reader.Int(1);
      value := if item == None || item.value > 1 then None else Some(Flag(item.value != 0));
    } else if tag.value == TAG_STRING {
      var text := reader.Text(form.n, form.limit);
      value := if text == None then None else Some(Words(text.value));
    } else {
      value := None;
    }
  }

  method ReadKey(reader: PayloadReader, form: TextForm) returns (key: Option<Text>)
    requires reader.Valid()
    modifies reader
    ensures reader.Valid() && Follows(key, Keys(form)(old(reader.Rest())), reader.Rest())
  {
    key := reader.Text(form.n, form.limit);
    if key.Some? && !NameOk(form, key.value) {
      key := None;
    }
  }

  method ReadItem(reader: PayloadReader, form: TextForm) returns (item: Option<Item>)
    requires reader.Valid()
    modifies reader
    ensures reader.Valid() && Follows(item, Items(form)(old(reader.Rest())), reader.Rest())
  {
    var key := ReadKey(reader, form);
    if key == None {
      return None;
    }
    var value := ReadValue(reader, form);
    item := if value == None then None else Some((key.value, value.value));
  }

  /** A repeated key spoils the bag at once. */
  method ReadBag(reader: PayloadReader, form: TextForm, limit: nat) returns (bag: Option<Bag>)
    requires reader.Valid()
    modifies reader
    ensures reader.Valid() && Follows(bag, TakeBag(form, limit, old(reader.Rest())), reader.Rest())
  {
    var count := reader.Int(form.size);
    if count == None || count.value > limit {
      return None;
    }
    ghost var start := reader.Rest();
    var read, ok := ReadItems(reader, form, count.value);
    if ok {
      bag := Some(read);
    } else {
      bag := None;
    }
  }

  /** What `count` items make, if they all read and no key is repeated. */
  ghost predicate MakesBag(take: Taker<Item>, count: nat, start: seq<Byte>, ok: bool, bag: Bag, rest: seq<Byte>) {
    match TakeMany(take, count, start)
    case Fail => !ok
    case Got(items, left) => ok == DistinctKeys(items) && (ok ==> bag == BagFrom(items) && rest == left)
  }

  lemma OneMoreItem(take: Taker<Item>, start: seq<Byte>, i: nat, count: nat, items: seq<Item>, item: Item, before: seq<Byte>, rest: seq<Byte>)
    requires i < count && |items| == i && DistinctKeys(items)
    requires TakeMany(take, i, start) == Got(items, before) && take(before) == Got(item, rest)
    ensures TakeMany(take, i + 1, start) == Got(items + [item], rest)
    ensures BagFrom(items + [item]) == BagFrom(items)[item.0 := item.1]
    ensures if item.0 in BagFrom(items) then MakesBag(take, count, start, false, map[], []) else DistinctKeys(items + [item])
  {
    BagKeys(items, item.0);
    assert (items + [item])[..i] == items;
    if item.0 in BagFrom(items) {
      var k :| 0 <= k < |items| && items[k].0 == item.0;
      assert (items + [item])[k].0 == (items + [item])[i].0;
      RepeatedKey(take, start, items + [item], i + 1, count, rest);
    }
  }

  method ReadItems(reader: PayloadReader, form: TextForm, count: nat) returns (read: Bag, ok: bool)
    requires reader.Valid()
    modifies reader
    ensures reader.Valid() && MakesBag(Items(form), count, old(reader.Rest()), ok, read, reader.Rest())
  {
    ghost var start, take := reader.Rest(), Items(form);
    ghost var items: seq<Item> := [];
    read, ok := map[], true;
    for i := 0 to count
      invariant reader.Valid() && TakeMany(take, i, start) == Got(items, reader.Rest())
      invariant |items| == i && DistinctKeys(items) && read == BagFrom(items)
    {
      ghost var before := reader.Rest();
      var item := ReadItem(reader, form);
      if item == None {
        ManyFails(take, start, i, count);
        return read, false;
      }
      OneMoreItem(take, start, i, count, items, item.value, before, reader.Rest());
      if item.value.0 in read {
        return read, false;
      }
      read := read[item.value.0 := item.value.1];
      items := items + [item.value];
    }
  }

  lemma RepeatedKey(take: Taker<Item>, s: seq<Byte>, items: seq<Item>, i: nat, count: nat, rest: seq<Byte>)
    requires i <= count && TakeMany(take, i, s) == Got(items, rest) && !DistinctKeys(items)
    ensures TakeMany(take, count, s).Got? ==> !DistinctKeys(TakeMany(take, count, s).value)
  {
    if TakeMany(take, count, s).Got? {
      ManyPrefix(take, s, i, count);
      var all := TakeMany(take, count, s).value;
      var a, b :| 0 <= a < b < |items| && items[a].0 == items[b].0;
      assert all[a].0 == all[b].0;
    }
  }
}
