/** Names of segment files: the zero-padded first LSN, and a suffix while the segment is active. */
module SegmentNames {
  import opened Integers

  const NAME_PREFIX := "seg-"
  const NAME_DIGITS := 20
  const SEGMENT_EXTENSION := ".gwal"
  const ACTIVE_SUFFIX := ".gwal.active"
  const TEMP_PREFIX := "tmp-"

  function Digit(d: nat): char
    requires d < 10
  {
    ('0' as nat + d) as char
  }

  predicate IsDigit(c: char) {
    '0' <= c <= '9'
  }

  function Padded(n: nat, value: nat): (s: string)
    ensures |s| == n
  {
    if n == 0 then "" else Padded(n - 1, value / 10) + [Digit(value % 10)]
  }

  function FileName(lsn: nat): string {
    NAME_PREFIX + Padded(NAME_DIGITS, lsn)
  }

  function Number(s: string): nat
    requires forall c | c in s :: IsDigit(c)
  {
    if s == "" then 0
    else
      assert s[|s| - 1] in s;
      10 * Number(s[..|s| - 1]) + DigitValue(s[|s| - 1])
  }

  function DigitValue(c: char): (d: nat)
    requires IsDigit(c)
    ensures d < 10 && Digit(d) == c
  {
    c as nat - '0' as nat
  }

  predicate WellFormedName(name: string) {
    |name| == |NAME_PREFIX| + NAME_DIGITS && name[..4] == NAME_PREFIX && forall c | c in name[4..] :: IsDigit(c)
  }

  /** The LSN in a file name, zero if there is none; twenty digits may wrap around 64 bits. */
  function ParsedLsn(name: string): nat {
    if WellFormedName(name) then Number(name[4..]) % U64 else 0
  }

  lemma NumberStep(digits: string, i: nat)
    requires i < |digits| && (forall c | c in digits[..i] :: IsDigit(c)) && IsDigit(digits[i])
    ensures forall c | c in digits[..i + 1] :: IsDigit(c)
    ensures Number(digits[..i + 1]) % U64 == ((Number(digits[..i]) % U64) * 10 + DigitValue(digits[i])) % U64
  {
    assert digits[..i + 1][..i] == digits[..i];
    var n, d := Number(digits[..i]), DigitValue(digits[i]);
    assert 10 * n + d == (n % U64) * 10 + d + U64 * (10 * (n / U64));
  }

  method ParseFileName(name: string) returns (lsn: nat)
    ensures lsn == ParsedLsn(name)
  {
    if |name| != |NAME_PREFIX| + NAME_DIGITS || name[..4] != NAME_PREFIX {
      return 0;
    }
    lsn := 0;
    var digits := name[4..];
    for i := 0 to |digits|
      invariant forall c | c in digits[..i] :: IsDigit(c)
      invariant lsn == Number(digits[..i]) % U64
    {
      if !IsDigit(digits[i]) {
        return 0;
      }
      NumberStep(digits, i);
      lsn := (lsn * 10 + DigitValue(digits[i])) % U64;
    }
    assert digits[..|digits|] == digits;
  }

  function Power10(n: nat): nat {
    if n == 0 then 1 else 10 * Power10(n - 1)
  }

  lemma {:induction false} NumberOfPadded(n: nat, value: nat)
    requires value < Power10(n)
    ensures forall c | c in Padded(n, value) :: IsDigit(c)
    ensures Number(Padded(n, value)) == value
  {
    if n > 0 {
      NumberOfPadded(n - 1, value / 10);
      assert Padded(n, value)[..n - 1] == Padded(n - 1, value / 10);
    }
  }

  lemma TwentyDigits()
    ensures U64_MAX < Power10(NAME_DIGITS)
  {
    assert Power10(5) == 100000;
    assert Power10(10) == 10000000000;
    assert Power10(15) == 1000000000000000;
    assert Power10(20) == 100000000000000000000;
  }

  /** Every LSN is read back from its file name. */
  lemma NameIsParsed(lsn: nat)
    requires 0 < lsn <= U64_MAX
    ensures ParsedLsn(FileName(lsn)) == lsn
  {
    TwentyDigits();
    NumberOfPadded(NAME_DIGITS, lsn);
    assert FileName(lsn)[4..] == Padded(NAME_DIGITS, lsn);
  }

  /** A segment as its name tells: its first LSN and whether it is still written to. */
  datatype SegmentName = SegmentName(first: nat, active: bool) {
    function Text(): string {
      FileName(first) + if active then ACTIVE_SUFFIX else SEGMENT_EXTENSION
    }
  }

  predicate EndsWith(s: string, suffix: string) {
    |s| >= |suffix| && s[|s| - |suffix|..] == suffix
  }

  /** What a directory entry is to recovery: a segment, or nothing (first LSN zero). Temporary files never count. */
  function Classified(name: string): SegmentName {
    if |name| >= 4 && name[..4] == TEMP_PREFIX then SegmentName(0, false)
    else if EndsWith(name, ACTIVE_SUFFIX) then SegmentName(ParsedLsn(name[..|name| - |ACTIVE_SUFFIX|]), true)
    else if EndsWith(name, SEGMENT_EXTENSION) then SegmentName(ParsedLsn(name[..|name| - |SEGMENT_EXTENSION|]), false)
    else SegmentName(0, false)
  }

  /** A segment is recognised by its own name, and a temporary name is never one. */
  lemma ClassifiedText(segment: SegmentName, rest: string)
    requires 0 < segment.first <= U64_MAX
    ensures Classified(segment.Text()) == segment
    ensures Classified(TEMP_PREFIX + rest).first == 0
  {
    NameIsParsed(segment.first);
    var base, name := FileName(segment.first), segment.Text();
    assert name[0] == 's';
    assert name[..|base|] == base;
    assert TEMP_PREFIX[0] == 't';
    if !segment.active {
      assert name[|name| - 1] == 'l' && ACTIVE_SUFFIX[|ACTIVE_SUFFIX| - 1] == 'e';
    }
    assert (TEMP_PREFIX + rest)[..4] == TEMP_PREFIX;
  }
}
