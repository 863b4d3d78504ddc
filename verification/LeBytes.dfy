/** Little-endian integers, under every on-disk format. */
module LeBytes {

  type Byte = x: nat | x < 256

  /** The values that fit `n` bytes are those below `Limit(n)`. */
  function Limit(n: nat): (r: nat)
    ensures r > 0
  {
    if n == 0 then 1 else 256 * Limit(n - 1)
  }

  function Le(n: nat, value: nat): (s: seq<Byte>)
    ensures |s| == n
  {
    if n == 0 then [] else [value % 256] + Le(n - 1, value / 256)
  }

  function Value(s: seq<Byte>): (v: nat)
    ensures v < Limit(|s|)
  {
    if s == [] then 0 else s[0] + 256 * Value(s[1..])
  }

  lemma {:induction false} ValueOfLe(n: nat, value: nat)
    requires value < Limit(n)
    ensures Value(Le(n, value)) == value
  {
    if n > 0 {
      ValueOfLe(n - 1, value / 256);
      assert Le(n, value)[1..] == Le(n - 1, value / 256);
    }
  }

  lemma {:induction false} LeOfValue(s: seq<Byte>)
    ensures Le(|s|, Value(s)) == s
  {
    if s != [] {
      LeOfValue(s[1..]);
      Digits(s[0], Value(s[1..]));
      assert s == [s[0]] + s[1..];
    }
  }

  lemma Digits(low: Byte, high: nat)
    ensures (low + 256 * high) % 256 == low && (low + 256 * high) / 256 == high
  {
  }

  lemma {:induction false} ValueAppend(s: seq<Byte>, b: Byte)
    ensures Value(s + [b]) == Value(s) + Limit(|s|) * b
  {
    if s != [] {
      assert (s + [b])[1..] == s[1..] + [b];
      ValueAppend(s[1..], b);
    } else {
      assert [b][1..] == [];
    }
  }

  lemma Limits()
    ensures Limit(2) == 0x1_0000 && Limit(4) == 0x1_0000_0000 && Limit(8) == 0x1_0000_0000_0000_0000
  {
    assert Limit(1) == 256;
    assert Limit(3) == 0x100_0000;
    assert Limit(5) == 0x100_0000_0000;
    assert Limit(6) == 0x1_0000_0000_0000;
    assert Limit(7) == 0x100_0000_0000_0000;
  }

  method WriteLe(out: array<Byte>, at: nat, n: nat, value: nat)
    requires at + n <= out.Length
    modifies out
    ensures out[at..at + n] == Le(n, value)
    ensures out[..at] == old(out[..at]) && out[at + n..] == old(out[at + n..])
  {
    var rest := value;
    for i := 0 to n
      invariant out[..at] == old(out[..at]) && out[at + n..] == old(out[at + n..])
      invariant Le(n, value) == out[at..at + i] + Le(n - i, rest)
    {
      ghost var done := out[at..at + i];
      out[at + i] := rest % 256;
      assert out[at..at + i + 1] == done + [rest % 256];
      rest := rest / 256;
    }
  }

  method ReadLe(bytes: seq<Byte>, at: nat, n: nat) returns (value: nat)
    requires at + n <= |bytes|
    ensures value == Value(bytes[at..at + n])
  {
    value := 0;
    var scale: nat := 1;
    for i := 0 to n
      invariant scale == Limit(i) && value == Value(bytes[at..at + i])
    {
      ValueAppend(bytes[at..at + i], bytes[at + i]);
      assert bytes[at..at + i + 1] == bytes[at..at + i] + [bytes[at + i]];
      value := value + scale * bytes[at + i];
      scale := 256 * scale;
    }
  }
}
