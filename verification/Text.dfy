/** Text encodings: ASCII literals, decimal numerals, big-endian integers, and delimited fields. */
module Text {
  import opened Prelude

  /** The bytes of an ASCII literal. */
  function Ascii(s: string): (b: Bytes)
    ensures |b| == |s|
  {
    seq(|s|, i requires 0 <= i < |s| => if s[i] as int < 128 then s[i] as int as byte else 63)
  }

  predicate Free(d: byte, b: Bytes) { d !in b }

  // ---- Decimal numerals ----

  const DIGIT_0: byte := 48
  const PLUS: byte := 43

  predicate IsDigit(b: byte) { 48 <= b <= 57 }

  function Decimal(n: nat): (b: Bytes)
    ensures |b| >= 1 && forall i :: 0 <= i < |b| ==> IsDigit(b[i])
  {
    if n < 10 then [DIGIT_0 + n as byte] else Decimal(n / 10) + [DIGIT_0 + (n % 10) as byte]
  }

  /** The value of a run of digits; None when a byte is not a digit. */
  function DigitsValue(b: Bytes): Option<nat> {
    if b == [] then Some(0)
    else
      var last := b[|b| - 1];
      match DigitsValue(b[..|b| - 1])
      case None => None
      case Some(v) => if IsDigit(last) then Some(10 * v + (last - DIGIT_0) as nat) else None
  }

  /** `str::parse::<u16>`: an optional plus sign and at least one digit, within range. */
  function ParseU16(b: Bytes): Option<nat> {
    var digits := if b != [] && b[0] == PLUS then b[1..] else b;
    if digits == [] then None
    else
      match DigitsValue(digits)
      case None => None
      case Some(v) => if v < U16_LIMIT then Some(v) else None
  }

  lemma {:induction false} DigitsValueDecimal(n: nat)
    ensures DigitsValue(Decimal(n)) == Some(n)
  {
    if n >= 10 {
      DigitsValueDecimal(n / 10);
      assert Decimal(n)[..|Decimal(n)| - 1] == Decimal(n / 10);
    } else {
      assert DigitsValue(Decimal(n)[..0]) == Some(0);
    }
  }

  /** Parsing inverts printing on every u16. */
  lemma ParseU16Decimal(n: nat)
    requires n < U16_LIMIT
    ensures ParseU16(Decimal(n)) == Some(n)
  {
    DigitsValueDecimal(n);
    assert IsDigit(Decimal(n)[0]);
  }

  /** The parser also takes a leading plus sign and leading zeros, so a reference has several spellings. */
  lemma ParseU16Lenient(b: Bytes)
    requires b != [] && forall i :: 0 <= i < |b| ==> IsDigit(b[i])
    ensures ParseU16([43] + b) == ParseU16(b) == ParseU16([48] + b)
  {
    LeadingZero(b);
    assert ([43] + b)[1..] == b && [48] + b == [DIGIT_0] + b;
  }

  lemma {:induction false} LeadingZero(b: Bytes)
    ensures DigitsValue([DIGIT_0] + b) == DigitsValue(b)
  {
    var c := [DIGIT_0] + b;
    if b == [] {
      assert c[..0] == [];
    } else {
      LeadingZero(b[..|b| - 1]);
      assert c[..|c| - 1] == [DIGIT_0] + b[..|b| - 1];
    }
  }

  lemma DecimalInjective(n: nat, m: nat)
    requires Decimal(n) == Decimal(m)
    ensures n == m
  {
    DigitsValueDecimal(n);
    DigitsValueDecimal(m);
  }

  // ---- Big-endian integers ----

  function BigEndian(n: nat, width: nat): (b: Bytes)
    ensures |b| == width
  {
    if width == 0 then [] else BigEndian(n / 256, width - 1) + [(n % 256) as byte]
  }

  function FromBigEndian(b: Bytes): nat {
    if b == [] then 0 else 256 * FromBigEndian(b[..|b| - 1]) + b[|b| - 1] as nat
  }

  function Pow256(width: nat): nat { if width == 0 then 1 else 256 * Pow256(width - 1) }

  /** Without its `count` low bytes. */
  function ShiftedRight(n: nat, count: nat): nat { if count == 0 then n else ShiftedRight(n / 256, count - 1) }

  /** The most significant byte comes first, and only the low `width` bytes are kept. */
  lemma {:induction false} BigEndianAt(n: nat, width: nat, i: nat)
    requires i < width
    ensures BigEndian(n, width)[i] as nat == ShiftedRight(n, width - 1 - i) % 256
  {
    if i < width - 1 {
      BigEndianAt(n / 256, width - 1, i);
    }
  }

  lemma {:induction false} BigEndianRoundTrip(n: nat, width: nat)
    requires n < Pow256(width)
    ensures FromBigEndian(BigEndian(n, width)) == n
  {
    if width > 0 {
      BigEndianRoundTrip(n / 256, width - 1);
      assert BigEndian(n, width)[..width - 1] == BigEndian(n / 256, width - 1);
    }
  }

  lemma U16BigEndian(n: nat)
    requires n < U16_LIMIT
    ensures FromBigEndian(BigEndian(n, 2)) == n
  {
    assert Pow256(2) == U16_LIMIT;
    BigEndianRoundTrip(n, 2);
  }

  lemma U64BigEndian(n: nat)
    requires n < U64_LIMIT
    ensures FromBigEndian(BigEndian(n, 8)) == n
  {
    assert Pow256(4) == 0x1_0000_0000;
    assert Pow256(8) == U64_LIMIT;
    BigEndianRoundTrip(n, 8);
  }

  // ---- Fields ended by a delimiter ----

  function Terminated(d: byte, fields: seq<Bytes>): Bytes {
    if fields == [] then [] else fields[0] + [d] + Terminated(d, fields[1..])
  }

  ghost predicate AllFree(d: byte, fields: seq<Bytes>) {
    fields == [] || (Free(d, fields[0]) && AllFree(d, fields[1..]))
  }

  lemma {:induction false} DelimiterCount(d: byte, fields: seq<Bytes>)
    ensures multiset(Terminated(d, fields))[d] >= |fields|
    ensures multiset(Terminated(d, fields))[d] == |fields| <==> AllFree(d, fields)
  {
    if fields != [] {
      DelimiterCount(d, fields[1..]);
      assert multiset(fields[0] + [d] + Terminated(d, fields[1..]))
          == multiset(fields[0]) + multiset([d]) + multiset(Terminated(d, fields[1..]));
      assert Free(d, fields[0]) <==> multiset(fields[0])[d] == 0;
    }
  }

  /** How many bytes stand before the first delimiter. */
  function Before(d: byte, b: Bytes): nat {
    if b == [] || b[0] == d then 0 else 1 + Before(d, b[1..])
  }

  lemma {:induction false} BeforeField(d: byte, a: Bytes, x: Bytes)
    requires Free(d, a)
    ensures Before(d, a + [d] + x) == |a|
  {
    if a != [] {
      assert (a + [d] + x)[1..] == a[1..] + [d] + x;
      BeforeField(d, a[1..], x);
    }
  }

  lemma FirstField(d: byte, a: Bytes, x: Bytes, b: Bytes, y: Bytes)
    requires Free(d, a) && Free(d, b)
    requires a + [d] + x == b + [d] + y
    ensures a == b && x == y
  {
    var s, t := a + [d] + x, b + [d] + y;
    BeforeField(d, a, x);
    BeforeField(d, b, y);
    assert a == s[..|a|] && b == t[..|b|];
    assert x == s[|a| + 1..] && y == t[|b| + 1..];
  }

  /** The encoding is injective as soon as one side is free of the delimiter: the other side then
      has to be free of it too. */
  lemma {:induction false} TerminatedInjective(d: byte, fields: seq<Bytes>, others: seq<Bytes>)
    requires |fields| == |others| && AllFree(d, fields)
    requires Terminated(d, fields) == Terminated(d, others)
    ensures fields == others
  {
    DelimiterCount(d, fields);
    DelimiterCount(d, others);
    if fields != [] {
      FirstField(d, fields[0], Terminated(d, fields[1..]), others[0], Terminated(d, others[1..]));
      TerminatedInjective(d, fields[1..], others[1..]);
      assert fields == [fields[0]] + fields[1..];
      assert others == [others[0]] + others[1..];
    }
  }
}
