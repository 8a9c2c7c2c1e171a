/** The systematic Reed-Solomon code over GF(2^8): shard i of a codeword is, byte by byte, the value
    at point i of the polynomial with fewer than k coefficients through the data shards. Any k shards
    determine that polynomial. This stands for the erasure library behind the coder.
  */
module ReedSolomon {
  import opened Prelude
  import opened Gf256
  import opened Polynomial

  // ---- Bytes as field elements ----

  function Pow2(w: nat): nat { if w == 0 then 1 else 2 * Pow2(w - 1) }

  function Bits(n: nat, w: nat): (s: seq<bool>)
    ensures |s| == w
  {
    if w == 0 then [] else [n % 2 == 1] + Bits(n / 2, w - 1)
  }

  function Value(s: seq<bool>): (n: nat)
    ensures n < Pow2(|s|)
  {
    if s == [] then 0 else (if s[0] then 1 else 0) + 2 * Value(s[1..])
  }

  lemma {:induction false} ValueBits(n: nat, w: nat)
    requires n < Pow2(w)
    ensures Value(Bits(n, w)) == n
  {
    if w > 0 {
      ValueBits(n / 2, w - 1);
      assert Bits(n, w)[1..] == Bits(n / 2, w - 1);
    }
  }

  lemma {:induction false} BitsValue(s: seq<bool>)
    ensures Bits(Value(s), |s|) == s
  {
    if s != [] {
      BitsValue(s[1..]);
      assert Value(s) / 2 == Value(s[1..]);
    }
  }

  lemma Pow2Of8()
    ensures Pow2(8) == 256
  {
    assert Pow2(4) == 16;
  }

  function ToElem(b: byte): Elem { Bits(b as nat, 8) }

  function ToByte(a: Elem): byte {
    Pow2Of8();
    Value(a) as byte
  }

  lemma ByteRoundTrip(b: byte)
    ensures ToByte(ToElem(b)) == b
  {
    hide Bits, Value;
    Pow2Of8();
    ValueBits(b as nat, 8);
  }

  lemma ElemRoundTrip(a: Elem)
    ensures ToElem(ToByte(a)) == a
  {
    hide Bits, Value;
    BitsValue(a);
  }

  // ---- One byte position ----

  /** The evaluation point of shard i. */
  function Point(i: nat): Elem
    requires i < 256
  {
    ToElem(i as byte)
  }

  function Points(idx: seq<nat>): (p: seq<Elem>)
    requires forall j :: 0 <= j < |idx| ==> idx[j] < 256
    ensures |p| == |idx| && forall j :: 0 <= j < |p| ==> p[j] == Point(idx[j])
  {
    seq(|idx|, j requires 0 <= j < |idx| => Point(idx[j]))
  }

  lemma PointsDistinct(idx: seq<nat>)
    requires forall j :: 0 <= j < |idx| ==> idx[j] < 256
    requires forall j, m :: 0 <= j < m < |idx| ==> idx[j] < idx[m]
    ensures Distinct(Points(idx))
  {
    hide ToElem, ToByte;
    var p := Points(idx);
    forall j, m | 0 <= j < m < |p|
      ensures p[j] != p[m]
    {
      ByteRoundTrip(idx[j] as byte);
      ByteRoundTrip(idx[m] as byte);
    }
  }

  /** The value at point i of the polynomial through `vals` at the points of `idx`. */
  function Extend(idx: seq<nat>, vals: seq<Elem>, i: nat): Elem
    requires |idx| == |vals| && i < 256
    requires forall j :: 0 <= j < |idx| ==> idx[j] < 256
  {
    Eval(Interpolate(Points(idx), vals), Point(i))
  }

  /** Symbol i of the codeword of `col`, the data symbols of one byte position. */
  function Symbol(col: seq<Elem>, i: nat): Elem
    requires |col| <= 255 && i < 256
  {
    Extend(Naturals(|col|), col, i)
  }

  lemma SymbolSystematic(col: seq<Elem>, i: nat)
    requires i < |col| <= 255
    ensures Symbol(col, i) == col[i]
  {
    hide Eval, Interpolate, Point;
    PointsDistinct(Naturals(|col|));
    InterpolateHits(Points(Naturals(|col|)), col, i);
  }

  /** Any k symbols of a codeword at distinct indices give back every symbol. */
  lemma ExtendSymbols(col: seq<Elem>, idx: seq<nat>, vals: seq<Elem>, i: nat)
    requires |idx| == |vals| == |col| <= 255 && i < 256
    requires forall j :: 0 <= j < |idx| ==> idx[j] < 256 && vals[j] == Symbol(col, idx[j])
    requires forall j, m :: 0 <= j < m < |idx| ==> idx[j] < idx[m]
    ensures Extend(idx, vals, i) == Symbol(col, i)
  {
    var pts := Points(idx);
    var p, q := Interpolate(pts, vals), Interpolate(Points(Naturals(|col|)), col);
    hide Eval, Interpolate, Point;
    PointsDistinct(idx);
    forall j | 0 <= j < |pts|
      ensures Eval(p, pts[j]) == Eval(q, pts[j])
    {
      InterpolateHits(pts, vals, j);
    }
    Unique(p, q, pts, Point(i));
  }

  // ---- Whole shards: the library's contract ----

  ghost predicate Uniform(shards: seq<Bytes>, size: nat) {
    forall i :: 0 <= i < |shards| ==> |shards[i]| == size
  }

  /** The field elements of byte position j. */
  function Column(shards: seq<Bytes>, j: nat): (col: seq<Elem>)
    requires forall i :: 0 <= i < |shards| ==> j < |shards[i]|
    ensures |col| == |shards| && forall i :: 0 <= i < |col| ==> col[i] == ToElem(shards[i][j])
  {
    seq(|shards|, i requires 0 <= i < |shards| => ToElem(shards[i][j]))
  }

  function ParityByte(data: seq<Bytes>, i: nat, j: nat): byte
    requires |data| <= 255 && i < 256
    requires forall m :: 0 <= m < |data| ==> j < |data[m]|
  {
    ToByte(Symbol(Column(data, j), i))
  }

  function ParityShard(data: seq<Bytes>, size: nat, i: nat): (shard: Bytes)
    requires |data| <= 255 && i < 256 && Uniform(data, size)
    ensures |shard| == size
  {
    seq(size, j requires 0 <= j < size => ParityByte(data, i, j))
  }

  /** Fill the parity shards behind the k data shards. */
  function EncodeParity(shards: seq<Bytes>, k: nat, size: nat): (r: seq<Bytes>)
    requires k <= |shards| <= 255 && Uniform(shards, size)
    ensures |r| == |shards| && r[..k] == shards[..k] && Uniform(r, size)
  {
    seq(|shards|, i requires 0 <= i < |shards| => if i < k then shards[i] else ParityShard(shards[..k], size, i))
  }

  predicate SameSize(slots: seq<Option<Bytes>>, size: nat) {
    forall i :: 0 <= i < |slots| && slots[i].Some? ==> |slots[i].value| == size
  }

  function RebuiltByte(slots: seq<Option<Bytes>>, idx: seq<nat>, i: nat, j: nat): byte
    requires i < 256
    requires forall t :: 0 <= t < |idx| ==>
      idx[t] < |slots| <= 255 && slots[idx[t]].Some? && j < |slots[idx[t]].value|
  {
    ToByte(Extend(idx, seq(|idx|, t requires 0 <= t < |idx| => ToElem(slots[idx[t]].value[j])), i))
  }

  /** The shard at index i from the shards listed in `idx`. */
  function RebuiltShard(slots: seq<Option<Bytes>>, idx: seq<nat>, size: nat, i: nat): (shard: Bytes)
    requires |slots| <= 255 && i < |slots| && SameSize(slots, size)
    requires forall t :: 0 <= t < |idx| ==> idx[t] < |slots| && slots[idx[t]].Some?
    ensures |shard| == size
  {
    seq(size, j requires 0 <= j < size => RebuiltByte(slots, idx, i, j))
  }

  /** Fill the holes from the first k present shards. Refuses shards of unequal or zero length, and
      fewer than k shards. */
  function Reconstruct(slots: seq<Option<Bytes>>, k: nat): (full: Option<seq<Option<Bytes>>>)
    requires 1 <= k <= |slots| <= 255
    ensures full.Some? ==> |full.value| == |slots|
  {
    var present := Present(slots);
    if present == [] then None
    else
      var size := |slots[present[0]].value|;
      if size == 0 || !SameSize(slots, size) then None
      else if |present| == |slots| then Some(slots)
      else if |present| < k then None
      else Some(seq(|slots|, i requires 0 <= i < |slots| =>
        if slots[i].Some? then slots[i] else Some(RebuiltShard(slots, present[..k], size, i))))
  }

  ghost predicate AgreesWith(slots: seq<Option<Bytes>>, codeword: seq<Bytes>) {
    |slots| == |codeword| &&
    forall i :: 0 <= i < |slots| && slots[i].Some? ==> slots[i].value == codeword[i]
  }

  /** Byte j of any shard of a codeword is the symbol of column j at that index. */
  lemma CodewordSymbol(shards: seq<Bytes>, k: nat, size: nat, i: nat, j: nat)
    requires k <= |shards| <= 255 && Uniform(shards, size) && i < |shards| && j < size
    ensures ToElem(EncodeParity(shards, k, size)[i][j]) == Symbol(Column(shards[..k], j), i)
  {
    hide ToElem, ToByte, Symbol;
    var r := EncodeParity(shards, k, size);
    if i < k {
      assert r[i] == r[..k][i] == shards[..k][i];
      SymbolSystematic(Column(shards[..k], j), i);
    } else {
      ElemRoundTrip(Symbol(Column(shards[..k], j), i));
    }
  }

  lemma RebuiltIsCodeword(shards: seq<Bytes>, k: nat, size: nat, slots: seq<Option<Bytes>>, idx: seq<nat>, i: nat)
    requires k <= |shards| <= 255 && Uniform(shards, size) && i < |shards|
    requires AgreesWith(slots, EncodeParity(shards, k, size)) && SameSize(slots, size) && |idx| == k
    requires forall t :: 0 <= t < |idx| ==> idx[t] < |slots| && slots[idx[t]].Some?
    requires forall t, u :: 0 <= t < u < |idx| ==> idx[t] < idx[u]
    ensures RebuiltShard(slots, idx, size, i) == EncodeParity(shards, k, size)[i]
  {
    hide ToElem, ToByte, Symbol, Extend;
    var r := EncodeParity(shards, k, size);
    var shard := RebuiltShard(slots, idx, size, i);
    forall j | 0 <= j < size
      ensures shard[j] == r[i][j]
    {
      var col := Column(shards[..k], j);
      var vals := seq(|idx|, t requires 0 <= t < |idx| => ToElem(slots[idx[t]].value[j]));
      forall t | 0 <= t < |idx|
        ensures vals[t] == Symbol(col, idx[t])
      {
        CodewordSymbol(shards, k, size, idx[t], j);
      }
      ExtendSymbols(col, idx, vals, i);
      CodewordSymbol(shards, k, size, i, j);
      ByteRoundTrip(r[i][j]);
    }
  }

  /** Any k shards of a codeword rebuild the codeword. */
  lemma ReconstructCodeword(shards: seq<Bytes>, k: nat, size: nat, slots: seq<Option<Bytes>>)
    requires 1 <= k <= |shards| <= 255 && Uniform(shards, size) && size > 0
    requires AgreesWith(slots, EncodeParity(shards, k, size)) && CountSome(slots) >= k
    ensures
      var full := Reconstruct(slots, k);
      full.Some? && |full.value| == |slots| &&
      forall i :: 0 <= i < |slots| ==> full.value[i] == Some(EncodeParity(shards, k, size)[i])
  {
    hide ToElem, ToByte, Symbol, Extend, RebuiltShard;
    var r := EncodeParity(shards, k, size);
    var present := Present(slots);
    assert SameSize(slots, size);
    assert |slots[present[0]].value| == size;
    if |present| == |slots| {
      CountSomeAll(slots);
    } else {
      forall i | 0 <= i < |slots| && slots[i].None?
        ensures RebuiltShard(slots, present[..k], size, i) == r[i]
      {
        RebuiltIsCodeword(shards, k, size, slots, present[..k], i);
      }
    }
  }
}
