/** Reading binary payloads: what a reader takes off the front of the bytes, and what it makes of what was written. */
module Parsing {
  import opened Options
  import opened LeBytes

  datatype Parsed<T> = Fail | Got(value: T, rest: seq<Byte>)

  /** Reads a value off the front. */
  type Taker<T> = seq<Byte> -> Parsed<T>

  /** `bytes` in front of anything read back as `value`, and nothing more is taken. */
  ghost predicate TakesBack<T>(take: Taker<T>, bytes: seq<Byte>, value: T) {
    forall rest :: take(bytes + rest) == Got(value, rest)
  }

  /** Whatever is read satisfies `ok`. */
  ghost predicate Yields<T>(take: Taker<T>, ok: T -> bool) {
    forall s :: take(s).Got? ==> ok(take(s).value)
  }

  function TakeInt(n: nat, s: seq<Byte>): Parsed<nat> {
    if |s| < n then Fail else Got(Value(s[..n]), s[n..])
  }

  function Ints(n: nat): Taker<nat> {
    (s: seq<Byte>) => TakeInt(n, s)
  }

  function TakeBytes(n: nat, s: seq<Byte>): Parsed<seq<Byte>> {
    if |s| < n then Fail else Got(s[..n], s[n..])
  }

  /** A text with its length in `n` bytes before it, at most `limit` long. */
  function TakeText(n: nat, limit: nat, s: seq<Byte>): Parsed<seq<Byte>> {
    match TakeInt(n, s)
    case Fail => Fail
    case Got(length, rest) => if length > limit then Fail else TakeBytes(length, rest)
  }

  function Texts(n: nat, limit: nat): Taker<seq<Byte>> {
    (s: seq<Byte>) => TakeText(n, limit, s)
  }

  function TextBytes(n: nat, text: seq<Byte>): seq<Byte> {
    Le(n, |text|) + text
  }

  /** How each of several integers is written. */
  function IntBytes(n: nat): nat -> seq<Byte> {
    (v: nat) => Le(n, v)
  }

  function TakeMany<T>(take: Taker<T>, count: nat, s: seq<Byte>): Parsed<seq<T>> {
    if count == 0 then Got([], s)
    else
      match TakeMany(take, count - 1, s)
      case Fail => Fail
      case Got(items, rest) =>
        match take(rest)
        case Fail => Fail
        case Got(item, rest') => Got(items + [item], rest')
  }

  /** A count in `n` bytes, then as many items. */
  function TakeCounted<T>(n: nat, take: Taker<T>, limit: nat, s: seq<Byte>): Parsed<seq<T>> {
    match TakeInt(n, s)
    case Fail => Fail
    case Got(count, rest) => if count > limit then Fail else TakeMany(take, count, rest)
  }

  function Counteds<T>(n: nat, take: Taker<T>, limit: nat): Taker<seq<T>> {
    (s: seq<Byte>) => TakeCounted(n, take, limit, s)
  }

  function WriteMany<T>(write: T -> seq<Byte>, items: seq<T>): seq<Byte> {
    if items == [] then [] else WriteMany(write, items[..|items| - 1]) + write(items[|items| - 1])
  }

  /** The `n` bytes of a count. */
  function CountBytes(n: nat, count: nat): seq<Byte> {
    Le(n, count)
  }

  function WriteCounted<T>(n: nat, write: T -> seq<Byte>, items: seq<T>): seq<Byte> {
    CountBytes(n, |items|) + WriteMany(write, items)
  }

  /** One value after the other. */
  function TakeBoth<A, B>(a: Taker<A>, b: Taker<B>, s: seq<Byte>): Parsed<(A, B)> {
    match a(s)
    case Fail => Fail
    case Got(x, rest) =>
      match b(rest)
      case Fail => Fail
      case Got(y, rest') => Got((x, y), rest')
  }

  function Both<A, B>(a: Taker<A>, b: Taker<B>): Taker<(A, B)> {
    (s: seq<Byte>) => TakeBoth(a, b, s)
  }

  /** A value checked and turned into another. */
  function TakeMapped<A, B>(a: Taker<A>, ok: A -> bool, f: A -> B, s: seq<Byte>): Parsed<B> {
    match a(s)
    case Fail => Fail
    case Got(x, rest) => if ok(x) then Got(f(x), rest) else Fail
  }

  function Mapped<A, B>(a: Taker<A>, ok: A -> bool, f: A -> B): Taker<B> {
    (s: seq<Byte>) => TakeMapped(a, ok, f, s)
  }

  function Manys<T>(take: Taker<T>, count: nat): Taker<seq<T>> {
    (s: seq<Byte>) => TakeMany(take, count, s)
  }

  lemma Appended(before: seq<Byte>, a: seq<Byte>, b: seq<Byte>)
    ensures (before + a) + b == before + (a + b)
  {
  }

  /** One more item after a head and the items before it. */
  lemma NextWritten<T>(head: seq<Byte>, write: T -> seq<Byte>, items: seq<T>, i: nat)
    requires i < |items|
    ensures (head + WriteMany(write, items[..i])) + write(items[i]) == head + WriteMany(write, items[..i + 1])
  {
    assert items[..i + 1][..i] == items[..i];
  }

  lemma AllWritten<T>(before: seq<Byte>, n: nat, write: T -> seq<Byte>, items: seq<T>)
    ensures (before + CountBytes(n, |items|)) + WriteMany(write, items[..|items|]) == before + WriteCounted(n, write, items)
  {
    assert items[..|items|] == items;
  }

  // ---- Round trips ----

  lemma BothTakeBack<A, B>(a: Taker<A>, b: Taker<B>, x: seq<Byte>, y: seq<Byte>, v: A, w: B)
    requires TakesBack(a, x, v) && TakesBack(b, y, w)
    ensures TakesBack(Both(a, b), x + y, (v, w))
  {
    forall rest
      ensures TakeBoth(a, b, (x + y) + rest) == Got((v, w), rest)
    {
      assert (x + y) + rest == x + (y + rest);
    }
  }

  lemma MappedTakeBack<A, B>(a: Taker<A>, ok: A -> bool, f: A -> B, x: seq<Byte>, v: A)
    requires TakesBack(a, x, v) && ok(v)
    ensures TakesBack(Mapped(a, ok, f), x, f(v))
  {
    forall rest
      ensures TakeMapped(a, ok, f, x + rest) == Got(f(v), rest)
    {
    }
  }

  lemma AllTaken<T>(take: Taker<T>, bytes: seq<Byte>, value: T)
    requires TakesBack(take, bytes, value)
    ensures take(bytes) == Got(value, [])
  {
    assert bytes + [] == bytes;
  }

  lemma ManysTakeBack<T>(take: Taker<T>, write: T -> seq<Byte>, items: seq<T>)
    requires forall i | 0 <= i < |items| :: TakesBack(take, write(items[i]), items[i])
    ensures TakesBack(Manys(take, |items|), WriteMany(write, items), items)
  {
    forall rest
      ensures TakeMany(take, |items|, WriteMany(write, items) + rest) == Got(items, rest)
    {
      ManyTakeBack(take, write, items, rest);
    }
  }

  lemma IntTakesBack(n: nat, value: nat)
    requires value < Limit(n)
    ensures TakesBack(Ints(n), Le(n, value), value)
  {
    ValueOfLe(n, value);
    forall rest
      ensures Ints(n)(Le(n, value) + rest) == Got(value, rest)
    {
      assert (Le(n, value) + rest)[..n] == Le(n, value) && (Le(n, value) + rest)[n..] == rest;
    }
  }

  lemma TextTakesBack(n: nat, limit: nat, text: seq<Byte>)
    requires |text| <= limit && |text| < Limit(n)
    ensures TakesBack(Texts(n, limit), TextBytes(n, text), text)
  {
    IntTakesBack(n, |text|);
    forall rest
      ensures TakeText(n, limit, TextBytes(n, text) + rest) == Got(text, rest)
    {
      assert TextBytes(n, text) + rest == Le(n, |text|) + (text + rest);
      assert Ints(n)(Le(n, |text|) + (text + rest)) == Got(|text|, text + rest);
      assert (text + rest)[..|text|] == text && (text + rest)[|text|..] == rest;
    }
  }

  lemma {:induction false} ManyTakeBack<T>(take: Taker<T>, write: T -> seq<Byte>, items: seq<T>, rest: seq<Byte>)
    requires forall i | 0 <= i < |items| :: TakesBack(take, write(items[i]), items[i])
    ensures TakeMany(take, |items|, WriteMany(write, items) + rest) == Got(items, rest)
  {
    if items == [] {
      assert WriteMany(write, items) + rest == rest;
    } else {
      var init, last := items[..|items| - 1], items[|items| - 1];
      assert WriteMany(write, items) + rest == WriteMany(write, init) + (write(last) + rest);
      ManyTakeBack(take, write, init, write(last) + rest);
      assert TakesBack(take, write(last), last);
      assert init + [last] == items;
    }
  }

  /** One item that does not read spoils all longer lists. */
  lemma {:induction false} ManyFails<T>(take: Taker<T>, s: seq<Byte>, i: nat, count: nat)
    requires i < count && TakeMany(take, i, s).Got? && take(TakeMany(take, i, s).rest).Fail?
    ensures TakeMany(take, count, s).Fail?
  {
    if count > i + 1 {
      ManyFails(take, s, i, count - 1);
    }
  }

  lemma {:induction false} ManyPrefix<T>(take: Taker<T>, s: seq<Byte>, i: nat, count: nat)
    requires i <= count && TakeMany(take, count, s).Got?
    ensures TakeMany(take, i, s).Got? && TakeMany(take, i, s).value <= TakeMany(take, count, s).value
  {
    if i < count {
      ManyPrefix(take, s, i, count - 1);
    }
  }

  lemma CountedTakeBack<T>(n: nat, take: Taker<T>, write: T -> seq<Byte>, limit: nat, items: seq<T>)
    requires |items| <= limit && |items| < Limit(n)
    requires forall i | 0 <= i < |items| :: TakesBack(take, write(items[i]), items[i])
    ensures TakesBack(Counteds(n, take, limit), WriteCounted(n, write, items), items)
  {
    IntTakesBack(n, |items|);
    forall rest
      ensures TakeCounted(n, take, limit, WriteCounted(n, write, items) + rest) == Got(items, rest)
    {
      var body := WriteMany(write, items) + rest;
      assert WriteCounted(n, write, items) + rest == Le(n, |items|) + body;
      assert Ints(n)(Le(n, |items|) + body) == Got(|items|, body);
      ManyTakeBack(take, write, items, rest);
    }
  }

  // ---- Ranges ----

  lemma IntInRange(n: nat)
    ensures Yields(Ints(n), v => v < Limit(n))
  {
  }

  lemma TextInRange(n: nat, limit: nat)
    ensures Yields(Texts(n, limit), text => |text| <= limit && |text| < Limit(n))
  {
  }

  predicate AllOk<T>(ok: T -> bool, items: seq<T>) {
    forall i | 0 <= i < |items| :: ok(items[i])
  }

  lemma {:induction false} ManyYield<T>(take: Taker<T>, ok: T -> bool, count: nat, s: seq<Byte>)
    requires Yields(take, ok)
    ensures var r := TakeMany(take, count, s); r.Got? ==> |r.value| == count && AllOk(ok, r.value)
  {
    if count > 0 {
      ManyYield(take, ok, count - 1, s);
    }
  }

  lemma CountedYield<T>(n: nat, take: Taker<T>, ok: T -> bool, limit: nat)
    requires Yields(take, ok)
    ensures Yields(Counteds(n, take, limit), items => |items| <= limit && |items| < Limit(n) && AllOk(ok, items))
  {
    forall s
      ensures var r := TakeCounted(n, take, limit, s); r.Got? ==> |r.value| <= limit && |r.value| < Limit(n) && AllOk(ok, r.value)
    {
      match TakeInt(n, s)
      case Fail =>
      case Got(count, rest) => ManyYield(take, ok, count, rest);
    }
  }

  // ---- The reader and the writer ----

  /** The outcome of reading agrees with what is to be taken, and leaves the rest. */
  ghost predicate Follows<T>(result: Option<T>, expected: Parsed<T>, rest: seq<Byte>) {
    match expected
    case Fail => result == None
    case Got(value, left) => result == Some(value) && rest == left
  }

  class PayloadReader {
    const bytes: seq<Byte>
    var offset: nat

    ghost predicate Valid()
      reads this
    {
      offset <= |bytes|
    }

    ghost function Rest(): seq<Byte>
      reads this
      requires Valid()
    {
      bytes[offset..]
    }

    constructor (bytes: seq<Byte>)
      ensures Valid() && Rest() == bytes
    {
      this.bytes, offset := bytes, 0;
    }

    method Int(n: nat) returns (value: Option<nat>)
      requires Valid()
      modifies this
      ensures Valid() && Follows(value, TakeInt(n, old(Rest())), Rest())
    {
      if offset + n > |bytes| {
        return None;
      }
      var v := ReadLe(bytes, offset, n);
      assert bytes[offset..][..n] == bytes[offset..offset + n] && bytes[offset..][n..] == bytes[offset + n..];
      offset := offset + n;
      value := Some(v);
    }

    method Text(n: nat, limit: nat) returns (text: Option<seq<Byte>>)
      requires Valid()
      modifies this
      ensures Valid() && Follows(text, TakeText(n, limit, old(Rest())), Rest())
    {
      var length := Int(n);
      if length == None || length.value > limit || offset + length.value > |bytes| {
        return None;
      }
      assert bytes[offset..][..length.value] == bytes[offset..offset + length.value];
      text := Some(bytes[offset..offset + length.value]);
      offset := offset + length.value;
    }

    /** Exactly `n` bytes. */
    method Raw(n: nat) returns (data: Option<seq<Byte>>)
      requires Valid()
      modifies this
      ensures Valid() && Follows(data, TakeBytes(n, old(Rest())), Rest())
      ensures data.Some? ==> |data.value| == n
    {
      if offset + n > |bytes| {
        return None;
      }
      assert bytes[offset..][..n] == bytes[offset..offset + n] && bytes[offset..][n..] == bytes[offset + n..];
      data := Some(bytes[offset..offset + n]);
      offset := offset + n;
    }
  }

  class PayloadWriter {
    var bytes: seq<Byte>

    constructor ()
      ensures bytes == []
    {
      bytes := [];
    }

    /** The value's low `n` bytes. */
    method Int(n: nat, value: nat)
      modifies this
      ensures bytes == old(bytes) + Le(n, value)
    {
      var buffer := new Byte[n](i => 0);
      WriteLe(buffer, 0, n, value);
      assert buffer[0..n] == buffer[..];
      bytes := bytes + buffer[..];
    }

    method Raw(data: seq<Byte>)
      modifies this
      ensures bytes == old(bytes) + data
    {
      bytes := bytes + data;
    }

    method Text(n: nat, text: seq<Byte>)
      modifies this
      ensures bytes == old(bytes) + TextBytes(n, text)
    {
      Int(n, |text|);
      bytes := bytes + text;
    }
  }

  method WriteInts(writer: PayloadWriter, n: nat, values: seq<nat>)
    modifies writer
    ensures writer.bytes == old(writer.bytes) + WriteMany(IntBytes(n), values)
  {
    ghost var head, write := writer.bytes, IntBytes(n);
    for i := 0 to |values|
      invariant writer.bytes == head + WriteMany(write, values[..i])
    {
      writer.Int(n, values[i]);
      NextWritten(head, write, values, i);
    }
    assert values[..|values|] == values;
  }

  method ReadInts(reader: PayloadReader, n: nat, count: nat) returns (values: Option<seq<nat>>)
    requires reader.Valid()
    modifies reader
    ensures reader.Valid() && Follows(values, Manys(Ints(n), count)(old(reader.Rest())), reader.Rest())
    ensures values.Some? ==> |values.value| == count
  {
    ghost var start, take := reader.Rest(), Ints(n);
    var list: seq<nat> := [];
    for i := 0 to count
      invariant reader.Valid() && TakeMany(take, i, start) == Got(list, reader.Rest()) && |list| == i
    {
      var item := reader.Int(n);
      if item == None {
        ManyFails(take, start, i, count);
        return None;
      }
      list := list + [item.value];
    }
    values := Some(list);
  }
}
