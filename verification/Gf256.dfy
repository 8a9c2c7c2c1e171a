/** The field GF(2^8) with the reduction polynomial x^8 + x^4 + x^3 + x^2 + 1, the arithmetic under
    the byte-wise Reed-Solomon code. An element is its eight coefficients, lowest first. The module
    proves the field laws, up to the existence of inverses, from the shift-and-add multiplication.
  */
module Gf256 {

  type Elem = a: seq<bool> | |a| == 8 witness [false, false, false, false, false, false, false, false]

  const ZERO: Elem := [false, false, false, false, false, false, false, false]
  const ONE: Elem := [true, false, false, false, false, false, false, false]
  const ALPHA: Elem := [false, true, false, false, false, false, false, false]

  function Add(a: Elem, b: Elem): (c: Elem)
    ensures forall i :: 0 <= i < 8 ==> c[i] == (a[i] != b[i])
  {
    seq(8, i requires 0 <= i < 8 => a[i] != b[i])
  }

  /** The coefficients of x^8 reduced. */
  predicate Tap(i: nat) { i == 0 || i == 2 || i == 3 || i == 4 }

  /** Multiplication by x. */
  function Shift(a: Elem): (c: Elem)
    ensures forall i :: 0 <= i < 8 ==> c[i] == ((i > 0 && a[i - 1]) != (Tap(i) && a[7]))
  {
    seq(8, i requires 0 <= i < 8 => (i > 0 && a[i - 1]) != (Tap(i) && a[7]))
  }

  function Sel(x: bool, a: Elem): Elem { if x then a else ZERO }

  /** The product of `a` with the coefficients of `b` from `i` on, as Horner's rule adds them up. */
  function Part(a: Elem, b: Elem, i: nat): Elem
    requires i <= 8
    decreases 8 - i
  {
    if i == 8 then ZERO else Add(Sel(b[i], a), Shift(Part(a, b, i + 1)))
  }

  function Mul(a: Elem, b: Elem): Elem { Part(a, b, 0) }

  // ---- Addition is a group of exponent two ----

  lemma AddComm(a: Elem, b: Elem)
    ensures Add(a, b) == Add(b, a)
  {}

  lemma AddAssoc(a: Elem, b: Elem, c: Elem)
    ensures Add(Add(a, b), c) == Add(a, Add(b, c))
  {}

  lemma AddZero(a: Elem)
    ensures Add(a, ZERO) == a && Add(ZERO, a) == a && Add(a, a) == ZERO && Shift(ZERO) == ZERO
  {}

  lemma AddCancel(a: Elem, b: Elem)
    ensures Add(a, b) == ZERO <==> a == b
  {
    if Add(a, b) == ZERO {
      assert forall i :: 0 <= i < 8 ==> a[i] == b[i] by {
        assert forall i :: 0 <= i < 8 ==> Add(a, b)[i] == (a[i] != b[i]);
      }
    } else if a == b {
      AddZero(a);
    }
  }

  lemma AddSwap(a: Elem, b: Elem, c: Elem, d: Elem)
    ensures Add(Add(a, b), Add(c, d)) == Add(Add(a, c), Add(b, d))
  {}

  lemma ShiftAdd(a: Elem, b: Elem)
    ensures Shift(Add(a, b)) == Add(Shift(a), Shift(b))
  {}

  lemma SelAdd(x: bool, a: Elem, b: Elem)
    ensures Sel(x, Add(a, b)) == Add(Sel(x, a), Sel(x, b))
  {
    AddZero(ZERO);
  }

  lemma SelXor(x: bool, y: bool, a: Elem)
    ensures Sel(x != y, a) == Add(Sel(x, a), Sel(y, a))
  {
    AddZero(a);
    AddZero(ZERO);
  }

  lemma SelShift(x: bool, a: Elem)
    ensures Sel(x, Shift(a)) == Shift(Sel(x, a))
  {
    AddZero(a);
  }

  // ---- Multiplication distributes, commutes and associates ----

  lemma PartStep(a: Elem, b: Elem, i: nat)
    requires i < 8
    ensures Part(a, b, i) == Add(Sel(b[i], a), Shift(Part(a, b, i + 1)))
  {}

  lemma PartEnd(a: Elem, b: Elem)
    ensures Part(a, b, 8) == ZERO
  {}

  lemma {:induction false} PartLeft(a: Elem, b: Elem, c: Elem, i: nat)
    requires i <= 8
    ensures Part(Add(a, b), c, i) == Add(Part(a, c, i), Part(b, c, i))
    decreases 8 - i
  {
    hide *;
    if i == 8 {
      PartEnd(Add(a, b), c);
      PartEnd(a, c);
      PartEnd(b, c);
      AddZero(ZERO);
    } else {
      PartStep(Add(a, b), c, i);
      PartStep(a, c, i);
      PartStep(b, c, i);
      PartLeft(a, b, c, i + 1);
      SelAdd(c[i], a, b);
      ShiftAdd(Part(a, c, i + 1), Part(b, c, i + 1));
      AddSwap(Sel(c[i], a), Sel(c[i], b), Shift(Part(a, c, i + 1)), Shift(Part(b, c, i + 1)));
    }
  }

  lemma {:induction false} PartRight(a: Elem, b: Elem, c: Elem, i: nat)
    requires i <= 8
    ensures Part(a, Add(b, c), i) == Add(Part(a, b, i), Part(a, c, i))
    decreases 8 - i
  {
    hide *;
    if i == 8 {
      PartEnd(a, Add(b, c));
      PartEnd(a, b);
      PartEnd(a, c);
      AddZero(ZERO);
    } else {
      PartStep(a, Add(b, c), i);
      PartStep(a, b, i);
      PartStep(a, c, i);
      PartRight(a, b, c, i + 1);
      SelXor(b[i], c[i], a);
      ShiftAdd(Part(a, b, i + 1), Part(a, c, i + 1));
      AddSwap(Sel(b[i], a), Sel(c[i], a), Shift(Part(a, b, i + 1)), Shift(Part(a, c, i + 1)));
    }
  }

  lemma {:induction false} PartShift(a: Elem, b: Elem, i: nat)
    requires i <= 8
    ensures Part(Shift(a), b, i) == Shift(Part(a, b, i))
    decreases 8 - i
  {
    hide *;
    if i == 8 {
      PartEnd(Shift(a), b);
      PartEnd(a, b);
      AddZero(ZERO);
    } else {
      PartStep(Shift(a), b, i);
      PartStep(a, b, i);
      PartShift(a, b, i + 1);
      SelShift(b[i], a);
      ShiftAdd(Sel(b[i], a), Shift(Part(a, b, i + 1)));
    }
  }

  /** The coefficients of `b` from `i` on, moved down to the low end. */
  function Top(b: Elem, i: nat): (c: Elem)
    requires i <= 8
    ensures forall j :: 0 <= j < 8 ==> c[j] == (i + j < 8 && b[i + j])
  {
    seq(8, j requires 0 <= j < 8 => i + j < 8 && b[i + j])
  }

  lemma TopStep(b: Elem, i: nat)
    requires i < 8
    ensures Top(b, i) == Add(Sel(b[i], ONE), Shift(Top(b, i + 1)))
  {}

  lemma TopAll(b: Elem)
    ensures Top(b, 0) == b && Top(b, 8) == ZERO
  {}

  lemma {:induction false} PartOne(b: Elem, i: nat)
    requires i <= 8
    ensures Part(ONE, b, i) == Top(b, i)
    decreases 8 - i
  {
    if i < 8 {
      hide *;
      PartStep(ONE, b, i);
      TopStep(b, i);
      PartOne(b, i + 1);
    }
  }

  lemma OneLeft(b: Elem)
    ensures Mul(ONE, b) == b
  {
    hide Part, Top;
    PartOne(b, 0);
    TopAll(b);
  }

  lemma {:induction false} PartZero(b: Elem, i: nat)
    requires i <= 8
    ensures Part(ZERO, b, i) == ZERO
    decreases 8 - i
  {
    if i < 8 {
      AddZero(ZERO);
      PartStep(ZERO, b, i);
      PartZero(b, i + 1);
    }
  }

  lemma ZeroLeft(b: Elem)
    ensures Mul(ZERO, b) == ZERO
  {
    PartZero(b, 0);
  }

  lemma SelMul(x: bool, a: Elem, b: Elem)
    ensures Mul(Sel(x, a), b) == Sel(x, Mul(a, b))
  {
    hide Mul;
    ZeroLeft(b);
  }

  lemma MulLeft(a: Elem, b: Elem, c: Elem)
    ensures Mul(Add(a, b), c) == Add(Mul(a, c), Mul(b, c))
  {
    hide Part, Add;
    PartLeft(a, b, c, 0);
  }

  lemma MulRight(a: Elem, b: Elem, c: Elem)
    ensures Mul(a, Add(b, c)) == Add(Mul(a, b), Mul(a, c))
  {
    hide Part, Add;
    PartRight(a, b, c, 0);
  }

  lemma MulShift(a: Elem, b: Elem)
    ensures Mul(Shift(a), b) == Shift(Mul(a, b))
  {
    hide Part, Shift;
    PartShift(a, b, 0);
  }

  lemma {:induction false} PartComm(a: Elem, b: Elem, i: nat)
    requires i <= 8
    ensures Mul(Part(ONE, a, i), b) == Part(b, a, i)
    decreases 8 - i
  {
    hide *;
    if i == 8 {
      ZeroLeft(b);
      PartEnd(ONE, a);
      PartEnd(b, a);
    } else {
      var tail := Part(ONE, a, i + 1);
      PartStep(ONE, a, i);
      PartStep(b, a, i);
      PartComm(a, b, i + 1);
      MulLeft(Sel(a[i], ONE), Shift(tail), b);
      SelMul(a[i], ONE, b);
      OneLeft(b);
      MulShift(tail, b);
    }
  }

  lemma MulComm(a: Elem, b: Elem)
    ensures Mul(a, b) == Mul(b, a)
  {
    hide Part;
    PartComm(a, b, 0);
    OneLeft(a);
  }

  lemma {:induction false} PartAssoc(a: Elem, b: Elem, c: Elem, i: nat)
    requires i <= 8
    ensures Part(Mul(a, b), c, i) == Mul(a, Part(b, c, i))
    decreases 8 - i
  {
    hide *;
    if i == 8 {
      ZeroLeft(a);
      MulComm(a, ZERO);
      PartEnd(Mul(a, b), c);
      PartEnd(b, c);
    } else {
      var tail := Part(b, c, i + 1);
      PartStep(Mul(a, b), c, i);
      PartStep(b, c, i);
      PartAssoc(a, b, c, i + 1);
      MulRight(a, Sel(c[i], b), Shift(tail));
      MulComm(a, Sel(c[i], b));
      SelMul(c[i], b, a);
      MulComm(a, b);
      MulComm(a, Shift(tail));
      MulShift(tail, a);
      MulComm(tail, a);
    }
  }

  lemma MulAssoc(a: Elem, b: Elem, c: Elem)
    ensures Mul(Mul(a, b), c) == Mul(a, Mul(b, c))
  {
    hide Part;
    PartAssoc(a, b, c, 0);
  }

  // ---- Squaring is a ring homomorphism whose eighth power is the identity ----

  function Square(a: Elem): Elem { Mul(a, a) }

  /** Coefficient `i` of a square. */
  predicate SquaredBit(a: Elem, i: nat) {
    match i
    case 0 => a[0] != (a[4] != (a[6] != a[7]))
    case 1 => a[7]
    case 2 => a[1] != (a[4] != (a[5] != a[6]))
    case 3 => a[4] != a[6]
    case 4 => a[2] != (a[4] != (a[5] != a[7]))
    case 5 => a[5]
    case 6 => a[3] != (a[5] != a[6])
    case _ => a[6]
  }

  /** Squaring written out on the coefficients. */
  function Squared(a: Elem): (c: Elem)
    ensures forall i :: 0 <= i < 8 ==> c[i] == SquaredBit(a, i)
  {
    seq(8, i requires 0 <= i < 8 => SquaredBit(a, i))
  }

  lemma SquareAdd(a: Elem, b: Elem)
    ensures Square(Add(a, b)) == Add(Square(a), Square(b))
  {
    hide Mul, Add;
    MulLeft(a, b, Add(a, b));
    MulRight(a, a, b);
    MulRight(b, a, b);
    MulComm(a, b);
    AddSwap(Mul(a, a), Mul(a, b), Mul(a, b), Mul(b, b));
    AddSwap(Mul(a, a), Mul(a, b), Mul(b, b), Mul(a, b));
    AddComm(Mul(a, b), Mul(b, b));
    AddZero(Mul(a, b));
    AddZero(Add(Mul(a, a), Mul(b, b)));
  }

  lemma SquareMul(a: Elem, b: Elem)
    ensures Square(Mul(a, b)) == Mul(Square(a), Square(b))
  {
    hide Mul;
    MulAssoc(a, b, Mul(a, b));
    MulAssoc(b, a, b);
    MulComm(a, b);
    MulAssoc(a, b, b);
    MulAssoc(a, a, Mul(b, b));
  }

  lemma ShiftIsMul(a: Elem)
    ensures Shift(a) == Mul(ALPHA, a)
  {
    hide Mul;
    assert Shift(ONE) == ALPHA;
    MulShift(ONE, a);
    OneLeft(a);
  }

  lemma SquareShift(a: Elem)
    ensures Square(Shift(a)) == Shift(Shift(Square(a)))
  {
    hide *;
    ShiftIsMul(a);
    SquareMul(ALPHA, a);
    ShiftIsMul(ALPHA);
    SquareIsMul(ALPHA);
    MulAssoc(ALPHA, ALPHA, Square(a));
    ShiftIsMul(Square(a));
    ShiftIsMul(Shift(Square(a)));
  }

  lemma SquareIsMul(a: Elem)
    ensures Square(a) == Mul(a, a)
  {}

  lemma SquareSel(x: bool)
    ensures Square(Sel(x, ONE)) == Sel(x, ONE)
  {
    hide Mul;
    OneLeft(ONE);
    ZeroLeft(ZERO);
  }

  lemma SquaredBitAdd(a: Elem, b: Elem, i: nat)
    requires i < 8
    ensures SquaredBit(Add(a, b), i) == (SquaredBit(a, i) != SquaredBit(b, i))
  {
    match i
    case 0 =>
    case 1 =>
    case 2 =>
    case 3 =>
    case 4 =>
    case 5 =>
    case 6 =>
    case _ =>
  }

  lemma SquaredAdd(a: Elem, b: Elem)
    ensures Squared(Add(a, b)) == Add(Squared(a), Squared(b))
  {
    hide SquaredBit;
    forall i | 0 <= i < 8
      ensures Squared(Add(a, b))[i] == Add(Squared(a), Squared(b))[i]
    {
      SquaredBitAdd(a, b, i);
    }
  }

  lemma SquaredBitShift(a: Elem, i: nat)
    requires i < 8
    ensures SquaredBit(Shift(a), i) == Shift(Shift(Squared(a)))[i]
  {
    var s := Squared(a);
    assert Shift(s)[7] == s[6] && Shift(s)[0] == s[7];
    match i
    case 0 =>
    case 1 =>
    case 2 =>
    case 3 =>
    case 4 =>
    case 5 =>
    case 6 =>
    case _ =>
  }

  lemma SquaredShift(a: Elem)
    ensures Squared(Shift(a)) == Shift(Shift(Squared(a)))
  {
    hide SquaredBit, Shift;
    forall i | 0 <= i < 8
      ensures Squared(Shift(a))[i] == Shift(Shift(Squared(a)))[i]
    {
      SquaredBitShift(a, i);
    }
  }

  lemma SquaredSel(x: bool)
    ensures Squared(Sel(x, ONE)) == Sel(x, ONE)
  {}

  lemma {:induction false} SquareTop(a: Elem, i: nat)
    requires i <= 8
    ensures Square(Top(a, i)) == Squared(Top(a, i))
    decreases 8 - i
  {
    hide *;
    if i == 8 {
      TopAll(a);
      SquareSel(false);
      SquaredSel(false);
      SelFalse();
    } else {
      TopStep(a, i);
      var low, rest := Sel(a[i], ONE), Top(a, i + 1);
      SquareAdd(low, Shift(rest));
      SquaredAdd(low, Shift(rest));
      SquareSel(a[i]);
      SquaredSel(a[i]);
      SquareShift(rest);
      SquaredShift(rest);
      SquareTop(a, i + 1);
    }
  }

  lemma SelFalse()
    ensures Sel(false, ONE) == ZERO
  {}

  lemma SquareIsSquared(a: Elem)
    ensures Square(a) == Squared(a)
  {
    hide *;
    SquareTop(a, 0);
    TopAll(a);
  }

  /** The only idempotents are 0 and 1: this is where irreducibility of the polynomial enters. */
  lemma Idempotent(e: Elem)
    requires Square(e) == e
    ensures e == ZERO || e == ONE
  {
    hide Square;
    SquareIsSquared(e);
    var s := Squared(e);
    assert s[1] == e[7] && s[7] == e[6] && s[3] == (e[4] != e[6]) && s[6] == (e[3] != (e[5] != e[6]));
    assert e[1] == e[7] == e[6];
    assert s[0] == (e[0] != (e[4] != (e[6] != e[7])));
    assert !e[4];
    assert e[3] == e[6] && e[3] == e[5];
    assert s[2] == (e[1] != (e[4] != (e[5] != e[6]))) && s[4] == (e[2] != (e[4] != (e[5] != e[7])));
    assert !e[2] && !e[1];
  }

  function Frobenius(a: Elem, k: nat): Elem {
    if k == 0 then a else Square(Frobenius(a, k - 1))
  }

  lemma {:induction false} FrobeniusHom(a: Elem, b: Elem, k: nat)
    ensures Frobenius(Add(a, b), k) == Add(Frobenius(a, k), Frobenius(b, k))
    ensures Frobenius(Mul(a, b), k) == Mul(Frobenius(a, k), Frobenius(b, k))
  {
    hide Square, Mul, Add;
    if k > 0 {
      FrobeniusHom(a, b, k - 1);
      SquareAdd(Frobenius(a, k - 1), Frobenius(b, k - 1));
      SquareMul(Frobenius(a, k - 1), Frobenius(b, k - 1));
    }
  }

  lemma {:induction false} FrobeniusSel(x: bool, k: nat)
    ensures Frobenius(Sel(x, ONE), k) == Sel(x, ONE)
  {
    hide Square;
    if k > 0 {
      FrobeniusSel(x, k - 1);
      SquareSel(x);
    }
  }

  lemma FrobeniusX()
    ensures Frobenius(ALPHA, 8) == ALPHA
  {
    hide Square;
    FrobeniusX4();
    var x5 := [true, false, true, true, true, false, false, true];
    var x6 := [true, true, true, true, true, false, true, false];
    var x7 := [true, false, true, false, false, false, false, true];
    SquareIsSquared(Frobenius(ALPHA, 4));
    assert Frobenius(ALPHA, 5) == x5;
    SquareIsSquared(x5);
    assert Frobenius(ALPHA, 6) == x6;
    SquareIsSquared(x6);
    assert Frobenius(ALPHA, 7) == x7;
    SquareIsSquared(x7);
  }

  lemma FrobeniusX4()
    ensures Frobenius(ALPHA, 4) == [false, false, true, true, false, false, true, false]
  {
    hide Square;
    var x1 := [false, false, true, false, false, false, false, false];
    var x2 := [false, false, false, false, true, false, false, false];
    var x3 := [true, false, true, true, true, false, false, false];
    SquareIsSquared(ALPHA);
    assert Frobenius(ALPHA, 0) == ALPHA;
    assert Frobenius(ALPHA, 1) == x1;
    SquareIsSquared(x1);
    assert Frobenius(ALPHA, 2) == x2;
    SquareIsSquared(x2);
    assert Frobenius(ALPHA, 3) == x3;
    SquareIsSquared(x3);
  }

  lemma {:induction false} FrobeniusTop(a: Elem, i: nat)
    requires i <= 8
    ensures Frobenius(Top(a, i), 8) == Top(a, i)
    decreases 8 - i
  {
    hide *;
    if i == 8 {
      TopAll(a);
      FrobeniusSel(false, 8);
      SelFalse();
    } else {
      TopStep(a, i);
      var rest := Top(a, i + 1);
      FrobeniusHom(Sel(a[i], ONE), Shift(rest), 8);
      FrobeniusSel(a[i], 8);
      ShiftIsMul(rest);
      FrobeniusHom(ALPHA, rest, 8);
      FrobeniusX();
      FrobeniusTop(a, i + 1);
    }
  }

  // ---- Inverses ----

  /** a^(2^k - 1). */
  function Ones(a: Elem, k: nat): Elem {
    if k == 0 then ONE else Mul(a, Square(Ones(a, k - 1)))
  }

  lemma {:induction false} OnesFrobenius(a: Elem, k: nat)
    ensures Mul(a, Ones(a, k)) == Frobenius(a, k)
  {
    hide Mul, Square;
    if k == 0 {
      OneLeft(a);
      MulComm(a, ONE);
    } else {
      var o := Ones(a, k - 1);
      OnesFrobenius(a, k - 1);
      SquareMul(a, o);
      MulAssoc(a, a, Square(o));
      SquareIsMul(a);
    }
  }

  /** a^254. */
  function Inv(a: Elem): Elem { Square(Ones(a, 7)) }

  /** Every element other than 0 has a multiplicative inverse. */
  lemma MulInv(a: Elem)
    requires a != ZERO
    ensures Mul(a, Inv(a)) == ONE
  {
    hide *;
    var e := Ones(a, 8);
    OnesUnfold(a);
    OnesFrobenius(a, 8);
    FrobeniusTop(a, 0);
    TopAll(a);
    assert Mul(a, e) == a;
    // e * a^255 = a^254 * (a * e), so e is idempotent
    MulComm(a, Inv(a));
    MulAssoc(Inv(a), a, e);
    SquareIsMul(e);
    Idempotent(e);
    ZeroLeft(a);
    MulComm(a, ZERO);
  }

  lemma OnesUnfold(a: Elem)
    ensures Ones(a, 8) == Mul(a, Inv(a))
  {}

  lemma NoZeroDivisor(a: Elem, b: Elem)
    requires Mul(a, b) == ZERO
    ensures a == ZERO || b == ZERO
  {
    hide *;
    if a != ZERO {
      MulInv(a);
      MulComm(a, Inv(a));
      MulAssoc(Inv(a), a, b);
      OneLeft(b);
      ZeroLeft(Inv(a));
      MulComm(Inv(a), ZERO);
    }
  }
}
