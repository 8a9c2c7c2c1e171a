/** Bytes, machine integers, results, and sequences with holes. */
module Prelude {

  newtype byte = x: int | 0 <= x < 256
  type Bytes = seq<byte>

  const U16_LIMIT := 0x1_0000
  const U64_LIMIT := 0x1_0000_0000_0000_0000
  const U64_MAX := U64_LIMIT - 1

  /** `u64::saturating_add`, `saturating_mul` and `saturating_sub` on values of that range. */
  function SaturatingAdd(a: nat, b: nat): nat { if a + b > U64_MAX then U64_MAX else a + b }
  function SaturatingMul(a: nat, b: nat): nat { if a * b > U64_MAX then U64_MAX else a * b }
  function SaturatingSub(a: nat, b: nat): nat { if a < b then 0 else a - b }

  /** The low 64 bits: what `u64` arithmetic keeps on overflow. */
  function Wrap(n: nat): (r: nat) { n % U64_LIMIT }

  lemma WrapAdd(a: nat, b: nat)
    ensures Wrap(Wrap(a) + b) == Wrap(a + b)
  {}

  lemma WrapSmall(n: nat)
    requires n < U64_LIMIT
    ensures Wrap(n) == n
  {}

  function Min(a: int, b: int): int { if a <= b then a else b }
  function Max(a: int, b: int): int { if a <= b then b else a }

  datatype Option<+T> = None | Some(value: T)

  datatype Result<+T, +E> = Ok(value: T) | Err(error: E)

  // ---- Sequences with holes: which slots are present ----

  /** The indices of the present slots, in increasing order. */
  function Present<T>(slots: seq<Option<T>>): (p: seq<nat>)
    ensures |p| <= |slots|
    ensures forall j :: 0 <= j < |p| ==> p[j] < |slots| && slots[p[j]].Some?
    ensures forall j, m :: 0 <= j < m < |p| ==> p[j] < p[m]
  {
    if slots == [] then []
    else
      var last := |slots| - 1;
      Present(slots[..last]) + (if slots[last].Some? then [last] else [])
  }

  function CountSome<T>(slots: seq<Option<T>>): nat { |Present(slots)| }

  lemma {:induction false} PresentComplete<T>(slots: seq<Option<T>>, i: nat)
    requires i < |slots| && slots[i].Some?
    ensures i in Present(slots)
  {
    var last := |slots| - 1;
    if i < last {
      PresentComplete(slots[..last], i);
    } else {
      assert Present(slots)[|Present(slots)| - 1] == last;
    }
  }

  lemma CountSomeNone<T>()
    ensures CountSome<T>([]) == 0
  {}

  lemma CountSomeSnoc<T>(slots: seq<Option<T>>, x: Option<T>)
    ensures CountSome(slots + [x]) == CountSome(slots) + (if x.Some? then 1 else 0)
  {
    assert (slots + [x])[..|slots|] == slots;
  }

  ghost function SomeSet<T>(slots: seq<Option<T>>): set<nat> {
    set i: nat | i < |slots| && slots[i].Some?
  }

  /** The count is the number of indices that are present. */
  lemma {:induction false} CountSomeIsCardinality<T>(slots: seq<Option<T>>)
    ensures CountSome(slots) == |SomeSet(slots)|
  {
    if slots != [] {
      var last := |slots| - 1;
      var front := slots[..last];
      CountSomeIsCardinality(front);
      assert SomeSet(slots) == SomeSet(front) + (if slots[last].Some? then {last} else {});
    } else {
      assert SomeSet(slots) == {};
    }
  }

  lemma CountSomeFill<T>(slots: seq<Option<T>>, i: nat, x: T)
    requires i < |slots| && slots[i].None?
    ensures CountSome(slots[i := Some(x)]) == CountSome(slots) + 1
  {
    CountSomeIsCardinality(slots);
    CountSomeIsCardinality(slots[i := Some(x)]);
    assert SomeSet(slots[i := Some(x)]) == SomeSet(slots) + {i};
  }

  lemma CountSomeAll<T>(slots: seq<Option<T>>)
    ensures CountSome(slots) == |slots| <==> forall i :: 0 <= i < |slots| ==> slots[i].Some?
  {
    CountSomeIsCardinality(slots);
    var all := Upto(|slots|);
    if forall i :: 0 <= i < |slots| ==> slots[i].Some? {
      assert SomeSet(slots) == all;
    } else {
      SubsetSize(SomeSet(slots), all);
      var i :| 0 <= i < |slots| && slots[i].None?;
      assert SomeSet(slots) <= all - {i};
      SubsetSize(SomeSet(slots), all - {i});
    }
  }

  // ---- Finite sets ----

  lemma {:induction false} SubsetSize<T>(a: set<T>, b: set<T>)
    requires a <= b
    ensures |a| <= |b|
  {
    if a != {} {
      var x :| x in a;
      SubsetSize(a - {x}, b - {x});
    }
  }

  lemma FullSubset<T>(a: set<T>, b: set<T>)
    requires a <= b && |a| >= |b|
    ensures a == b
  {
    if x :| x in b && x !in a {
      SubsetSize(a, b - {x});
    }
  }

  /** The indices below n, in order. */
  function Naturals(n: nat): (s: seq<nat>)
    ensures |s| == n && forall j :: 0 <= j < n ==> s[j] == j
  {
    seq(n, j => j)
  }

  /** The indices below n. */
  ghost function Upto(n: nat): (s: set<nat>)
    ensures |s| == n
    ensures forall i: nat :: i in s <==> i < n
  {
    if n == 0 then {} else Upto(n - 1) + {n - 1}
  }

  /** When all but the indices in `lost` are present, at least n - |lost| are present. */
  lemma CountSomeBut<T>(slots: seq<Option<T>>, lost: set<nat>)
    requires forall i :: 0 <= i < |slots| && i !in lost ==> slots[i].Some?
    ensures CountSome(slots) + |lost| >= |slots|
  {
    CountSomeIsCardinality(slots);
    var all := Upto(|slots|);
    assert all <= SomeSet(slots) + lost;
    SubsetSize(all, SomeSet(slots) + lost);
  }
}
