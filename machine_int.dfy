/**
 * Fixed-width machine integers as Go defines them: the eleven integer kinds,
 * their ranges, two's-complement wrap-around, division that truncates toward
 * zero, and the bitwise operators.  `int`, `uint` and `uintptr` are 64 bits
 * wide (the interpreter assumes the host and the target agree).
 */
module MachineInt {

  datatype IntKind =
    | Int | Int8 | Int16 | Int32 | Int64
    | Uint | Uint8 | Uint16 | Uint32 | Uint64 | Uintptr

  function Width(k: IntKind): nat {
    match k
    case Int8 | Uint8 => 8
    case Int16 | Uint16 => 16
    case Int32 | Uint32 => 32
    case _ => 64
  }

  predicate Signed(k: IntKind) {
    k.Int? || k.Int8? || k.Int16? || k.Int32? || k.Int64?
  }

  function Pow2(w: nat): (r: nat)
    ensures r >= 1
  {
    if w == 0 then 1 else 2 * Pow2(w - 1)
  }

  lemma {:induction false} Pow2Add(a: nat, b: nat)
    ensures Pow2(a + b) == Pow2(a) * Pow2(b)
  {
    if a > 0 {
      Pow2Add(a - 1, b);
      assert Pow2(a + b) == 2 * Pow2(a - 1 + b);
    }
  }

  /** 2^Width(k): the number of distinct values of kind k. */
  function Modulus(k: IntKind): (m: nat)
    ensures m >= 256 && m % 2 == 0
  {
    match Width(k)
    case 8 => 0x100
    case 16 => 0x1_0000
    case 32 => 0x1_0000_0000
    case _ => 0x1_0000_0000_0000_0000
  }

  lemma ModulusIsPow2(k: IntKind)
    ensures Modulus(k) == Pow2(Width(k))
  {
    assert Pow2(8) == 0x100;
    Pow2Add(8, 8);
    assert Pow2(16) == 0x1_0000;
    Pow2Add(16, 16);
    assert Pow2(32) == 0x1_0000_0000;
    Pow2Add(32, 32);
    assert Pow2(64) == 0x1_0000_0000_0000_0000;
  }

  function MinOf(k: IntKind): int {
    if Signed(k) then -(Modulus(k) / 2) else 0
  }

  function MaxOf(k: IntKind): int {
    if Signed(k) then Modulus(k) / 2 - 1 else Modulus(k) - 1
  }

  predicate InRange(k: IntKind, n: int) {
    MinOf(k) <= n <= MaxOf(k)
  }

  /**
   * The value of kind k that a two's-complement machine holds after computing
   * n exactly: the unique representative of n modulo 2^w in k's range.
   */
  function Wrap(k: IntKind, n: int): (r: int)
    ensures InRange(k, r)
    ensures (r - n) % Modulus(k) == 0
  {
    var m := Modulus(k);
    var u := n % m;
    if Signed(k) && u >= m / 2 then u - m else u
  }

  /** The bit pattern of n as an unsigned number of Width(k) bits. */
  function Bits(k: IntKind, n: int): (u: nat)
    ensures u < Modulus(k)
    ensures (u - n) % Modulus(k) == 0
  {
    ModDiff(k, n);
    n % Modulus(k)
  }

  /** n and n % 2^w agree modulo 2^w. */
  lemma ModDiff(k: IntKind, n: int)
    ensures (n % Modulus(k) - n) % Modulus(k) == 0
  {
    match Width(k)
    case 8 =>
    case 16 =>
    case 32 =>
    case _ =>
  }

  /** Two values of one kind that agree modulo 2^w are equal. */
  lemma CongruentInRangeEqual(k: IntKind, a: int, b: int)
    requires InRange(k, a) && InRange(k, b)
    requires (a - b) % Modulus(k) == 0
    ensures a == b
  {
    match Width(k)
    case 8 =>
    case 16 =>
    case 32 =>
    case _ =>
  }

  /** Wrap is the identity on values already in range. */
  lemma WrapInRange(k: IntKind, n: int)
    requires InRange(k, n)
    ensures Wrap(k, n) == n
  {
    CongruentInRangeEqual(k, Wrap(k, n), n);
  }

  /** Multiples of 2^w are closed under addition and negation. */
  lemma ModSum(k: IntKind, x: int, y: int)
    requires x % Modulus(k) == 0 && y % Modulus(k) == 0
    ensures (x + y) % Modulus(k) == 0 && (-x) % Modulus(k) == 0
  {
    var m := Modulus(k);
    if m == 0x100 {
      ModSumLit8(x, y);
    } else if m == 0x1_0000 {
      ModSumLit16(x, y);
    } else if m == 0x1_0000_0000 {
      ModSumLit32(x, y);
    } else {
      ModSumLit64(x, y);
    }
  }

  lemma ModSumLit8(x: int, y: int)
    requires x % 0x100 == 0 && y % 0x100 == 0
    ensures (x + y) % 0x100 == 0 && (-x) % 0x100 == 0
  {}

  lemma ModSumLit16(x: int, y: int)
    requires x % 0x1_0000 == 0 && y % 0x1_0000 == 0
    ensures (x + y) % 0x1_0000 == 0 && (-x) % 0x1_0000 == 0
  {}

  lemma ModSumLit32(x: int, y: int)
    requires x % 0x1_0000_0000 == 0 && y % 0x1_0000_0000 == 0
    ensures (x + y) % 0x1_0000_0000 == 0 && (-x) % 0x1_0000_0000 == 0
  {}

  lemma ModSumLit64(x: int, y: int)
    requires x % 0x1_0000_0000_0000_0000 == 0 && y % 0x1_0000_0000_0000_0000 == 0
    ensures (x + y) % 0x1_0000_0000_0000_0000 == 0 && (-x) % 0x1_0000_0000_0000_0000 == 0
  {}

  /** Wrap depends on its argument only modulo 2^w. */
  lemma WrapCongruent(k: IntKind, a: int, b: int)
    requires (a - b) % Modulus(k) == 0
    ensures Wrap(k, a) == Wrap(k, b)
  {
    var ra, rb := Wrap(k, a), Wrap(k, b);
    ModSum(k, ra - a, a - b);
    ModSum(k, rb - b, 0);
    ModSum(k, ra - b, -(rb - b));
    assert ra - rb == (ra - b) + -(rb - b);
    CongruentInRangeEqual(k, ra, rb);
  }

  /** Wrap of the bit pattern is the value itself. */
  lemma WrapBits(k: IntKind, n: int)
    requires InRange(k, n)
    ensures Wrap(k, Bits(k, n)) == n
  {
    WrapCongruent(k, Bits(k, n), n);
    WrapInRange(k, n);
  }

  function Abs(x: int): nat {
    if x < 0 then -x else x
  }

  /** Go's integer quotient: it truncates toward zero. */
  function Quot(x: int, y: int): int
    requires y != 0
  {
    if (x < 0) == (y < 0) then Abs(x) / Abs(y) else -(Abs(x) / Abs(y))
  }

  /** Go's integer remainder: x - y * (x / y), so it has the sign of x. */
  function Rem(x: int, y: int): int
    requires y != 0
  {
    x - y * Quot(x, y)
  }

  /** The remainder is Abs(x) % Abs(y) carrying the sign of x. */
  lemma RemIsSignedMod(x: int, y: int)
    requires y != 0
    ensures Rem(x, y) == if x < 0 then -(Abs(x) % Abs(y)) else Abs(x) % Abs(y)
  {
    var X, Y := Abs(x), Abs(y);
    var q: int, r: int := X / Y, X % Y;
    assert X == Y * q + r;
    if x >= 0 && y > 0 {
    } else if x < 0 && y < 0 {
      assert y * q == -(Y * q);
    } else if x >= 0 {
      assert y * (-q) == Y * q;
    } else {
      assert y * (-q) == -(Y * q);
    }
  }

  lemma QuotBound(x: int, y: int)
    requires y != 0
    ensures Abs(y) * Abs(Quot(x, y)) <= Abs(x)
  {
    var X, Y := Abs(x), Abs(y);
    assert X == Y * (X / Y) + X % Y;
    assert Abs(Quot(x, y)) == X / Y;
  }

  /**
   * The defining laws of truncated division: the quotient rounds toward zero,
   * and the remainder is smaller than the divisor and has the dividend's sign.
   */
  lemma QuotRemLaws(x: int, y: int)
    requires y != 0
    ensures x == y * Quot(x, y) + Rem(x, y)
    ensures Abs(Rem(x, y)) < Abs(y)
    ensures Rem(x, y) == 0 || ((Rem(x, y) < 0) == (x < 0))
    ensures Abs(y) * Abs(Quot(x, y)) <= Abs(x)
  {
    RemIsSignedMod(x, y);
    QuotBound(x, y);
  }

  /** The remainder of two values of kind k is again in k's range. */
  lemma RemInRange(k: IntKind, x: int, y: int)
    requires InRange(k, x) && InRange(k, y) && y != 0
    ensures InRange(k, Rem(x, y))
  {
    QuotRemLaws(x, y);
  }

  // ---------------------------------------------------------------------
  // Bitwise operators, computed bit by bit on the low w bits

  datatype BitOp = AndBits | OrBits | XorBits | AndNotBits

  function ApplyBit(f: BitOp, a: bool, b: bool): bool {
    match f
    case AndBits => a && b
    case OrBits => a || b
    case XorBits => a != b
    case AndNotBits => a && !b
  }

  /** The w-bit number whose i-th bit is f applied to the i-th bits of a and b. */
  function BitwiseW(f: BitOp, a: nat, b: nat, w: nat): (r: nat)
    ensures r < Pow2(w)
  {
    if w == 0 then 0
    else
      (if ApplyBit(f, a % 2 == 1, b % 2 == 1) then 1 else 0)
      + 2 * BitwiseW(f, a / 2, b / 2, w - 1)
  }

  /** A binary bitwise operator on two values of kind k. */
  function Bitwise(f: BitOp, k: IntKind, x: int, y: int): (r: int)
    ensures InRange(k, r)
  {
    Wrap(k, BitwiseW(f, Bits(k, x), Bits(k, y), Width(k)))
  }

  /** Go's unary ^x: the complement, which is -x - 1 in two's complement. */
  function Complement(k: IntKind, x: int): (r: int)
    ensures InRange(k, r)
  {
    Wrap(k, -x - 1)
  }

  /** Go's unary -x on kind k: the negation, wrapped. */
  function Negate(k: IntKind, x: int): (r: int)
    ensures InRange(k, r)
  {
    Wrap(k, -x)
  }

  /** XOR against all ones flips every one of the w bits. */
  lemma {:induction false} XorAllOnes(a: nat, w: nat)
    requires a < Pow2(w)
    ensures BitwiseW(XorBits, a, Pow2(w) - 1, w) == Pow2(w) - 1 - a
  {
    if w > 0 {
      assert (Pow2(w) - 1) / 2 == Pow2(w - 1) - 1;
      assert (Pow2(w) - 1) % 2 == 1;
      XorAllOnes(a / 2, w - 1);
    }
  }

  /** AND NOT is AND with the complement of the second operand, bit by bit. */
  lemma {:induction false} AndNotIsAndOfComplement(a: nat, b: nat, w: nat)
    requires b < Pow2(w)
    ensures BitwiseW(AndNotBits, a, b, w) == BitwiseW(AndBits, a, Pow2(w) - 1 - b, w)
  {
    if w > 0 {
      var c := Pow2(w) - 1 - b;
      assert c / 2 == Pow2(w - 1) - 1 - b / 2;
      assert (c % 2 == 1) == (b % 2 == 0);
      AndNotIsAndOfComplement(a / 2, b / 2, w - 1);
    }
  }

  /** Two w-bit patterns that agree modulo 2^w are equal. */
  lemma BitsCongruentEqual(k: IntKind, a: int, b: int)
    requires 0 <= a < Modulus(k) && 0 <= b < Modulus(k)
    requires (a - b) % Modulus(k) == 0
    ensures a == b
  {
  }

  /** The bit pattern of ^x is the bit pattern of x with every bit flipped. */
  lemma ComplementBits(k: IntKind, x: int)
    ensures Bits(k, Complement(k, x)) == Modulus(k) - 1 - Bits(k, x)
  {
    var m := Modulus(k);
    var c := Complement(k, x);
    var u := m - 1 - Bits(k, x);
    var a, b, d := Bits(k, c) - c, c - (-x - 1), Bits(k, x) - x;
    ModSum(k, a, b);
    ModSum(k, a + b, d);
    assert (-m) % m == 0 by {
      ModSum(k, 0, 0);
      assert (m * -1) % m == 0;
    }
    ModSum(k, a + b + d, -m);
    assert Bits(k, c) - u == a + b + d + -m;
    BitsCongruentEqual(k, Bits(k, c), u);
  }

  /** Go's definition of ^x: x XOR a mask with every bit set. */
  lemma ComplementIsXorMask(k: IntKind, x: int)
    ensures Complement(k, x) == Bitwise(XorBits, k, x, Modulus(k) - 1)
  {
    var m := Modulus(k);
    assert Bits(k, m - 1) == m - 1;
    ModulusIsPow2(k);
    XorAllOnes(Bits(k, x), Width(k));
    ComplementBits(k, x);
    WrapBits(k, Complement(k, x));
  }

  /** Complementing twice gives back the original value. */
  lemma ComplementInvolutive(k: IntKind, x: int)
    requires InRange(k, x)
    ensures Complement(k, Complement(k, x)) == x
  {
    var c := Complement(k, x);
    var m := Modulus(k);
    ModSum(k, c - (-x - 1), 0);
    assert -c - 1 - x == -(c - (-x - 1));
    WrapCongruent(k, -c - 1, x);
    WrapInRange(k, x);
  }

  /** x &^ y == x & (^y) on every integer kind. */
  lemma AndNotViaComplement(k: IntKind, x: int, y: int)
    ensures Bitwise(AndNotBits, k, x, y) == Bitwise(AndBits, k, x, Complement(k, y))
  {
    ComplementBits(k, y);
    ModulusIsPow2(k);
    AndNotIsAndOfComplement(Bits(k, x), Bits(k, y), Width(k));
  }

  /** Negating twice gives back the original value, even for the most negative one. */
  lemma NegateInvolutive(k: IntKind, x: int)
    requires InRange(k, x)
    ensures Negate(k, Negate(k, x)) == x
  {
    var n := Negate(k, x);
    ModSum(k, n - (-x), 0);
    assert -n - x == -(n - (-x));
    WrapCongruent(k, -n, x);
    WrapInRange(k, x);
  }

  /** x + (-x) wraps to zero. */
  lemma NegateIsAdditiveInverse(k: IntKind, x: int)
    ensures Wrap(k, x + Negate(k, x)) == 0
  {
    WrapCongruent(k, x + Negate(k, x), 0);
    WrapInRange(k, 0);
  }

  /** The most negative value of a signed kind is its own negation. */
  lemma NegateMin(k: IntKind)
    requires Signed(k)
    ensures Negate(k, MinOf(k)) == MinOf(k)
  {
    var m := Modulus(k);
    ModSum(k, m, 0);
    assert m % m == 0;
    assert -MinOf(k) - MinOf(k) == m;
    WrapCongruent(k, -MinOf(k), MinOf(k));
    WrapInRange(k, MinOf(k));
  }

  /** AND, OR and XOR do not depend on the order of their operands. */
  lemma {:induction false} BitwiseWCommutes(f: BitOp, a: nat, b: nat, w: nat)
    requires f != AndNotBits
    ensures BitwiseW(f, a, b, w) == BitwiseW(f, b, a, w)
  {
    if w > 0 {
      BitwiseWCommutes(f, a / 2, b / 2, w - 1);
    }
  }

  /** x & x == x | x == x, and x ^ x == x &^ x == 0, on w-bit patterns. */
  lemma {:induction false} BitwiseWSelf(f: BitOp, a: nat, w: nat)
    requires a < Pow2(w)
    ensures BitwiseW(f, a, a, w) == if f == AndBits || f == OrBits then a else 0
  {
    if w > 0 {
      BitwiseWSelf(f, a / 2, w - 1);
    }
  }

  lemma BitwiseCommutes(f: BitOp, k: IntKind, x: int, y: int)
    requires f != AndNotBits
    ensures Bitwise(f, k, x, y) == Bitwise(f, k, y, x)
  {
    BitwiseWCommutes(f, Bits(k, x), Bits(k, y), Width(k));
  }

  /** On values of kind k: x & x == x | x == x, and x ^ x == x &^ x == 0. */
  lemma BitwiseSelf(f: BitOp, k: IntKind, x: int)
    requires InRange(k, x)
    ensures Bitwise(f, k, x, x) == if f == AndBits || f == OrBits then x else 0
  {
    ModulusIsPow2(k);
    BitwiseWSelf(f, Bits(k, x), Width(k));
    WrapBits(k, x);
    WrapInRange(k, 0);
  }

  /** A quotient of 64-bit values is one, except the most negative value divided by -1. */
  lemma QuotInRange(a: int, b: int)
    requires b != 0 && !(a == MinOf(Int64) && b == -1)
    ensures InRange(Int64, a) && InRange(Int64, b) ==> InRange(Int64, Quot(a, b))
  {
    var q := Quot(a, b);
    assert MinOf(Int64) == -0x8000_0000_0000_0000 && MaxOf(Int64) == 0x7FFF_FFFF_FFFF_FFFF;
    if InRange(Int64, a) && Abs(b) >= 2 {
      QuotBound(a, b);
      MulAtLeastTwice(Abs(b), Abs(q));
    } else if b == 1 {
      assert q == a;
    } else if b == -1 {
      assert q == -a;
    }
  }

  lemma MulAtLeastTwice(x: int, y: int)
    requires x >= 2 && y >= 0
    ensures x * y >= 2 * y
  {
    assert x * y == (x - 2) * y + 2 * y;
  }
}
