/** Which byte strings are UTF-8, as `String::from_utf8` decides it. */
module Utf8 {
  import opened Prelude

  predicate Between(lo: byte, b: byte, hi: byte) { lo <= b <= hi }

  predicate Continuation(b: byte) { Between(0x80, b, 0xBF) }

  /** The length of the well-formed character at the front; 0 when there is none. */
  function CharLen(b: Bytes): (n: nat)
    ensures n <= |b| && n <= 4
  {
    if b == [] then 0
    else if b[0] < 0x80 then 1
    else if |b| >= 2 && Between(0xC2, b[0], 0xDF) && Continuation(b[1]) then 2
    else if |b| >= 3 && Three(b[0], b[1]) && Continuation(b[2]) then 3
    else if |b| >= 4 && Four(b[0], b[1]) && Continuation(b[2]) && Continuation(b[3]) then 4
    else 0
  }

  /** The first two bytes of a three-byte character: no overlong forms and no surrogates. */
  predicate Three(a: byte, b: byte) {
    || (a == 0xE0 && Between(0xA0, b, 0xBF))
    || ((Between(0xE1, a, 0xEC) || Between(0xEE, a, 0xEF)) && Continuation(b))
    || (a == 0xED && Between(0x80, b, 0x9F))
  }

  /** The first two bytes of a four-byte character: no overlong forms and nothing past U+10FFFF. */
  predicate Four(a: byte, b: byte) {
    || (a == 0xF0 && Between(0x90, b, 0xBF))
    || (Between(0xF1, a, 0xF3) && Continuation(b))
    || (a == 0xF4 && Between(0x80, b, 0x8F))
  }

  predicate Valid(b: Bytes) {
    b == [] || (CharLen(b) > 0 && Valid(b[CharLen(b)..]))
  }

  lemma CharLenConcat(a: Bytes, b: Bytes)
    requires CharLen(a) > 0
    ensures CharLen(a + b) == CharLen(a)
  {
    var ab := a + b;
    assert forall i :: 0 <= i < |a| ==> ab[i] == a[i];
  }

  lemma {:induction false} ValidConcat(a: Bytes, b: Bytes)
    requires Valid(a) && Valid(b)
    ensures Valid(a + b)
    decreases |a|
  {
    if a == [] {
      assert a + b == b;
    } else {
      hide CharLen;
      var n := CharLen(a);
      CharLenConcat(a, b);
      assert (a + b)[n..] == a[n..] + b;
      ValidConcat(a[n..], b);
    }
  }

  lemma {:induction false} AsciiValid(a: Bytes)
    requires forall i :: 0 <= i < |a| ==> a[i] < 0x80
    ensures Valid(a)
  {
    if a != [] {
      AsciiValid(a[1..]);
    }
  }

  // ---- What the byte classes mean ----

  /** A Unicode scalar value: any code point but the surrogates. */
  predicate Scalar(c: nat) { c < 0xD800 || 0xE000 <= c < 0x11_0000 }

  /** The low six bits, as a continuation byte. */
  function Tail(c: nat): byte { (0x80 + c % 64) as byte }

  /** The bytes of one scalar value, as section 3 of RFC 3629 lays them out. */
  function EncodeChar(c: nat): Bytes
    requires Scalar(c)
  {
    if c < 0x80 then [c as byte]
    else if c < 0x800 then [(0xC0 + c / 64) as byte, Tail(c)]
    else if c < 0x1_0000 then [(0xE0 + c / 4096) as byte, Tail(c / 64), Tail(c)]
    else [(0xF0 + c / 262_144) as byte, Tail(c / 4096), Tail(c / 64), Tail(c)]
  }

  ghost function EncodeText(text: seq<nat>): Bytes
    requires forall c :: c in text ==> Scalar(c)
  {
    if text == [] then [] else EncodeChar(text[0]) + EncodeText(text[1..])
  }

  /** A character's own bytes are taken for a character of that length. */
  lemma EncodedChar(c: nat, rest: Bytes)
    requires Scalar(c)
    ensures CharLen(EncodeChar(c) + rest) == |EncodeChar(c)|
  {
    var n := |EncodeChar(c)|;
    var b := EncodeChar(c) + rest;
    assert forall i :: 0 <= i < n ==> b[i] == EncodeChar(c)[i];
    assert c / 4096 == c / 64 / 64 && c / 262_144 == c / 4096 / 64;
  }

  /** The value a well-formed front spells. */
  function DecodeChar(b: Bytes): nat
    requires CharLen(b) > 0
  {
    match CharLen(b)
    case 1 => b[0] as nat
    case 2 => (b[0] as nat - 0xC0) * 64 + (b[1] as nat - 0x80)
    case 3 => (b[0] as nat - 0xE0) * 4096 + (b[1] as nat - 0x80) * 64 + (b[2] as nat - 0x80)
    case _ =>
      (b[0] as nat - 0xF0) * 262_144 + (b[1] as nat - 0x80) * 4096 + (b[2] as nat - 0x80) * 64 + (b[3] as nat - 0x80)
  }

  ghost predicate Spells(b: Bytes)
    requires CharLen(b) > 0
  {
    Scalar(DecodeChar(b)) && EncodeChar(DecodeChar(b)) == b[..CharLen(b)]
  }

  lemma DecodedTwo(b: Bytes)
    requires CharLen(b) == 2
    ensures Spells(b)
  {
    Groups(0, 0, b[0] as nat - 0xC0, b[1] as nat - 0x80);
  }

  lemma DecodedThree(b: Bytes)
    requires CharLen(b) == 3
    ensures Spells(b)
  {
    Groups(0, b[0] as nat - 0xE0, b[1] as nat - 0x80, b[2] as nat - 0x80);
  }

  lemma DecodedFour(b: Bytes)
    requires CharLen(b) == 4
    ensures Spells(b)
  {
    Groups(b[0] as nat - 0xF0, b[1] as nat - 0x80, b[2] as nat - 0x80, b[3] as nat - 0x80);
  }

  /** An accepted character is the encoding of one scalar value, in its only and shortest form. */
  lemma DecodedChar(b: Bytes)
    requires CharLen(b) > 0
    ensures Scalar(DecodeChar(b)) && EncodeChar(DecodeChar(b)) == b[..CharLen(b)]
  {
    match CharLen(b)
    case 1 =>
    case 2 => DecodedTwo(b);
    case 3 => DecodedThree(b);
    case _ => DecodedFour(b);
  }

  lemma SixBits(q: nat, r: nat)
    requires r < 64
    ensures (q * 64 + r) / 64 == q && (q * 64 + r) % 64 == r
  {}

  /** The groups of six bits come back by division. */
  lemma Groups(w: nat, x: nat, y: nat, z: nat)
    requires x < 64 && y < 64 && z < 64
    ensures
      var c := w * 262_144 + x * 4096 + y * 64 + z;
      && c % 64 == z && c / 64 % 64 == y && c / 4096 % 64 == x
      && c / 64 == w * 4096 + x * 64 + y && c / 4096 == w * 64 + x && c / 262_144 == w
  {
    var c := w * 262_144 + x * 4096 + y * 64 + z;
    SixBits(w * 4096 + x * 64 + y, z);
    SixBits(w * 64 + x, y);
    SixBits(w, x);
    assert c / 4096 == c / 64 / 64 && c / 262_144 == c / 64 / 64 / 64;
  }

  /** A byte string is accepted exactly when it is the encoding of some text. */
  lemma ValidIffText(b: Bytes)
    ensures Valid(b) <==> exists text :: (forall c :: c in text ==> Scalar(c)) && EncodeText(text) == b
  {
    if Valid(b) {
      var text := TextOf(b);
    }
    if text :| (forall c :: c in text ==> Scalar(c)) && EncodeText(text) == b {
      TextValid(text);
    }
  }

  lemma {:induction false} TextOf(b: Bytes) returns (text: seq<nat>)
    requires Valid(b)
    ensures (forall c :: c in text ==> Scalar(c)) && EncodeText(text) == b
  {
    hide CharLen, EncodeChar, DecodeChar, Scalar;
    if b == [] {
      text := [];
    } else {
      DecodedChar(b);
      var n := CharLen(b);
      var front := DecodeChar(b);
      var rest := TextOf(b[n..]);
      text := [front] + rest;
      assert text[0] == front && text[1..] == rest;
      assert b == b[..n] + b[n..];
    }
  }

  lemma {:induction false} TextValid(text: seq<nat>)
    requires forall c :: c in text ==> Scalar(c)
    ensures Valid(EncodeText(text))
  {
    if text != [] {
      var c, rest := EncodeChar(text[0]), EncodeText(text[1..]);
      EncodedChar(text[0], rest);
      TextValid(text[1..]);
      hide CharLen, EncodeChar;
      assert (c + rest)[|c|..] == rest;
    }
  }
}
