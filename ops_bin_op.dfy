/**
 * Binary operators (waops/ops_bin_op.go). The dynamic type of x selects the
 * case; y must then have the same dynamic type or the assertion y.(T)
 * panics. Integer arithmetic wraps to the kind's width, / and % truncate
 * toward zero, + also concatenates strings, the bitwise operators take
 * integers only, and the orderings take integers and strings.
 */
module OpsBinOp {
  import opened Results
  import opened MachineInt
  import opened Values
  import opened GoToken
  import opened OpsUnOp

  /** Go's < on strings: lexicographic order of the characters (UTF-8 byte order). */
  predicate StrLess(a: string, b: string)
    decreases |a|
  {
    if |a| == 0 then |b| > 0
    else if |b| == 0 then false
    else if a[0] != b[0] then a[0] < b[0]
    else StrLess(a[1..], b[1..])
  }

  predicate IsArith(op: Token) {
    op in {ADD, SUB, MUL, QUO, REM, AND, OR, XOR, AND_NOT}
  }

  predicate IsOrder(op: Token) {
    op in {LSS, LEQ, GTR, GEQ}
  }

  /** The integer case of an arithmetic operator on two values of kind k. */
  function IntArith(op: Token, k: IntKind, a: int, b: int): (r: Result<int>)
    requires IsArith(op) && InRange(k, a) && InRange(k, b)
    ensures r.Ok? ==> InRange(k, r.value)
    ensures r.Err? <==> (op == QUO || op == REM) && b == 0
    ensures r.Err? ==> r.panic == DivisionByZero
  {
    match op
    case ADD => Ok(Wrap(k, a + b))
    case SUB => Ok(Wrap(k, a - b))
    case MUL => Ok(Wrap(k, a * b))
    case QUO => if b == 0 then Err(DivisionByZero) else Ok(Wrap(k, Quot(a, b)))
    case REM => if b == 0 then Err(DivisionByZero) else RemInRange(k, a, b); Ok(Rem(a, b))
    case AND | OR | XOR | AND_NOT => Ok(Bitwise(BitOpOf(op), k, a, b))
  }

  function IntOrder(op: Token, a: int, b: int): bool
    requires IsOrder(op)
  {
    match op
    case LSS => a < b
    case LEQ => a <= b
    case GTR => a > b
    case GEQ => a >= b
  }

  function StrOrder(op: Token, a: string, b: string): bool
    requires IsOrder(op)
  {
    match op
    case LSS => StrLess(a, b)
    case LEQ => !StrLess(b, a)
    case GTR => StrLess(b, a)
    case GEQ => !StrLess(a, b)
  }

  /** binop(op, t, x, y); t only names the type in a panic message and is left out. */
  function BinOp(op: Token, x: Value, y: Value): (r: Result<Value>)
    requires Canonical(x) && Canonical(y)
    ensures r.Ok? ==> Canonical(r.value) && (r.value.BoolV? || r.value.IntV? || r.value.StrV?)
    ensures r.Ok? && (op in {EQL, NEQ} || IsOrder(op)) ==> r.value.BoolV?
    ensures r.Ok? && IsArith(op) ==>
      (x.IntV? && y.IntV? && x.kind == y.kind && r.value.IntV? && r.value.kind == x.kind)
      || (op == ADD && x.StrV? && y.StrV? && r.value == StrV(x.s + y.s))
    ensures r.Ok? && IsOrder(op) ==> (x.IntV? && y.IntV? && x.kind == y.kind) || (x.StrV? && y.StrV?)
    ensures !(op in {EQL, NEQ} || IsArith(op) || IsOrder(op)) ==> r == Err(InvalidBinaryOp)
  {
    if op == EQL then
      var b :- Equals(x, y); Ok(BoolV(b))
    else if op == NEQ then
      var b :- Equals(x, y); Ok(BoolV(!b))
    else if IsArith(op) then
      if x.IntV? then
        if y.IntV? && y.kind == x.kind then
          var n :- IntArith(op, x.kind, x.n, y.n); Ok(IntV(x.kind, n))
        else Err(TypeAssertion)
      else if op == ADD && x.StrV? then
        if y.StrV? then Ok(StrV(x.s + y.s)) else Err(TypeAssertion)
      else Err(InvalidBinaryOp)
    else if IsOrder(op) then
      if x.IntV? then
        if y.IntV? && y.kind == x.kind then Ok(BoolV(IntOrder(op, x.n, y.n))) else Err(TypeAssertion)
      else if x.StrV? then
        if y.StrV? then Ok(BoolV(StrOrder(op, x.s, y.s))) else Err(TypeAssertion)
      else Err(InvalidBinaryOp)
    else
      Err(InvalidBinaryOp)
  }

  // ------------------------------------------------------------ equality

  /** == is value identity where it is defined, and != is its negation with the same panics. */
  lemma EqlNeq(x: Value, y: Value)
    requires Canonical(x) && Canonical(y)
    ensures BinOp(EQL, x, y).Ok? ==> BinOp(EQL, x, y).value == BoolV(x == y)
    ensures BinOp(NEQ, x, y).Ok? == BinOp(EQL, x, y).Ok?
    ensures BinOp(NEQ, x, y).Ok? ==> BinOp(NEQ, x, y).value == BoolV(x != y)
    ensures BinOp(EQL, x, y).Err? ==> BinOp(NEQ, x, y) == BinOp(EQL, x, y)
  {
  }

  // ------------------------------------------------------------ arithmetic

  /**
   * +, - and * on kind k give the exact result reduced modulo 2^w into k's
   * range (two's-complement wrap-around), and exactly the exact result when
   * that fits.
   */
  lemma ArithmeticWraps(op: Token, k: IntKind, a: int, b: int)
    requires op in {ADD, SUB, MUL} && InRange(k, a) && InRange(k, b)
    ensures var r := BinOp(op, IntV(k, a), IntV(k, b));
      r.Ok? && r.value.IntV? && r.value.kind == k
      && InRange(k, r.value.n) && (r.value.n - Exact(op, a, b)) % Modulus(k) == 0
      && (InRange(k, Exact(op, a, b)) ==> r.value.n == Exact(op, a, b))
  {
    var w := Wrap(k, Exact(op, a, b));
    assert IntArith(op, k, a, b) == Ok(w);
    assert BinOp(op, IntV(k, a), IntV(k, b)) == Ok(IntV(k, w));
    if InRange(k, Exact(op, a, b)) {
      WrapInRange(k, Exact(op, a, b));
    }
  }

  /** The mathematical result of +, - or *. */
  function Exact(op: Token, a: int, b: int): int
    requires op in {ADD, SUB, MUL}
  {
    if op == ADD then a + b else if op == SUB then a - b else a * b
  }

  /** On two integers of one kind an arithmetic operator computes IntArith. */
  lemma BinOpOnInts(op: Token, k: IntKind, a: int, b: int)
    requires IsArith(op) && InRange(k, a) && InRange(k, b)
    ensures var n := IntArith(op, k, a, b);
      BinOp(op, IntV(k, a), IntV(k, b)) == if n.Ok? then Ok(IntV(k, n.value)) else Err(n.panic)
  {
  }

  /**
   * Integer / and % on kind k: a zero divisor panics; otherwise the quotient
   * is the truncated quotient wrapped to k (only MinOf / -1 wraps), the
   * remainder has the dividend's sign and is smaller than the divisor, and
   * divisor * quotient + remainder wraps back to the dividend.
   */
  lemma DivisionLaws(k: IntKind, a: int, b: int)
    requires InRange(k, a) && InRange(k, b)
    ensures b == 0 ==> BinOp(QUO, IntV(k, a), IntV(k, b)) == Err(DivisionByZero)
    ensures b == 0 ==> BinOp(REM, IntV(k, a), IntV(k, b)) == Err(DivisionByZero)
    ensures b != 0 ==>
      var q := BinOp(QUO, IntV(k, a), IntV(k, b));
      var r := BinOp(REM, IntV(k, a), IntV(k, b));
      q.Ok? && r.Ok? && q.value.IntV? && r.value.IntV?
      && Abs(r.value.n) < Abs(b)
      && (r.value.n == 0 || ((r.value.n < 0) == (a < 0)))
      && Wrap(k, b * q.value.n + r.value.n) == a
      && (InRange(k, Quot(a, b)) ==> q.value.n == Quot(a, b))
  {
    DivisionOnInts(k, a, b);
    if b != 0 {
      var q, r := BinOp(QUO, IntV(k, a), IntV(k, b)), BinOp(REM, IntV(k, a), IntV(k, b));
      assert q.value.n == Wrap(k, Quot(a, b)) && r.value.n == Rem(a, b);
      WrappedDivision(k, a, b);
    }
  }

  /** QUO and REM on two integers of one kind, zero divisor included. */
  lemma DivisionOnInts(k: IntKind, a: int, b: int)
    requires InRange(k, a) && InRange(k, b)
    ensures BinOp(QUO, IntV(k, a), IntV(k, b)) == if b == 0 then Err(DivisionByZero) else Ok(IntV(k, Wrap(k, Quot(a, b))))
    ensures BinOp(REM, IntV(k, a), IntV(k, b)) == if b == 0 then Err(DivisionByZero) else Ok(IntV(k, Rem(a, b)))
  {
    BinOpOnInts(QUO, k, a, b);
    BinOpOnInts(REM, k, a, b);
    if b != 0 {
      assert IntArith(QUO, k, a, b) == Ok(Wrap(k, Quot(a, b)));
      assert IntArith(REM, k, a, b) == Ok(Rem(a, b));
    }
  }

  /** The laws of DivisionLaws on the wrapped quotient and the remainder themselves. */
  lemma WrappedDivision(k: IntKind, a: int, b: int)
    requires InRange(k, a) && InRange(k, b) && b != 0
    ensures var q, r := Wrap(k, Quot(a, b)), Rem(a, b);
      Abs(r) < Abs(b) && (r == 0 || ((r < 0) == (a < 0)))
      && Wrap(k, b * q + r) == a
      && (InRange(k, Quot(a, b)) ==> q == Quot(a, b))
  {
    var q := Wrap(k, Quot(a, b));
    QuotRemLaws(a, b);
    if InRange(k, Quot(a, b)) {
      WrapInRange(k, Quot(a, b));
    }
    assert (b * q - b * Quot(a, b)) % Modulus(k) == 0 by {
      ScaledCongruence(k, b, q, Quot(a, b));
    }
    WrapCongruent(k, b * q + Rem(a, b), a);
    WrapInRange(k, a);
  }

  /** b * x and b * y agree modulo 2^w when x and y do. */
  lemma ScaledCongruence(k: IntKind, b: int, x: int, y: int)
    requires (x - y) % Modulus(k) == 0
    ensures (b * x - b * y) % Modulus(k) == 0
  {
    var m := Modulus(k);
    var c := (x - y) / m;
    assert x - y == m * c;
    assert b * x - b * y == b * (x - y) == m * (b * c);
    MultipleOfModulus(k, b * c);
  }

  lemma MultipleOfModulus(k: IntKind, t: int)
    ensures (Modulus(k) * t) % Modulus(k) == 0
  {
    match Width(k)
    case 8 =>
    case 16 =>
    case 32 =>
    case _ =>
  }

  /** The example of a uint32 division: 7 / 2 == 3, and dividing by zero panics. */
  lemma Uint32DivisionExample()
    ensures BinOp(QUO, IntV(Uint32, 7), IntV(Uint32, 2)) == Ok(IntV(Uint32, 3))
    ensures BinOp(QUO, IntV(Uint32, 7), IntV(Uint32, 0)) == Err(DivisionByZero)
  {
    WrapInRange(Uint32, 3);
  }

  // ------------------------------------------------------------ bitwise

  /** &, | and ^ commute; x & x == x | x == x; x ^ x == x &^ x == 0. */
  lemma BitwiseLaws(op: Token, k: IntKind, a: int, b: int)
    requires op in {AND, OR, XOR, AND_NOT} && InRange(k, a) && InRange(k, b)
    ensures op != AND_NOT ==> BinOp(op, IntV(k, a), IntV(k, b)) == BinOp(op, IntV(k, b), IntV(k, a))
    ensures BinOp(op, IntV(k, a), IntV(k, a)) == Ok(IntV(k, if op in {AND, OR} then a else 0))
  {
    var f := BitOpOf(op);
    BinOpBitwise(op, k, a, b);
    BinOpBitwise(op, k, b, a);
    BinOpBitwise(op, k, a, a);
    if op != AND_NOT {
      BitwiseCommutes(f, k, a, b);
    }
    BitwiseSelf(f, k, a);
  }

  lemma BinOpBitwise(op: Token, k: IntKind, a: int, b: int)
    requires op in {AND, OR, XOR, AND_NOT} && InRange(k, a) && InRange(k, b)
    ensures BinOp(op, IntV(k, a), IntV(k, b)) == Ok(IntV(k, Bitwise(BitOpOf(op), k, a, b)))
  {
    BinOpOnInts(op, k, a, b);
    assert IntArith(op, k, a, b) == Ok(Bitwise(BitOpOf(op), k, a, b));
  }

  function BitOpOf(op: Token): BitOp
    requires op in {AND, OR, XOR, AND_NOT}
  {
    match op
    case AND => AndBits
    case OR => OrBits
    case XOR => XorBits
    case AND_NOT => AndNotBits
  }

  /** x &^ y == x & (^y): AND NOT is AND with the unary complement. */
  lemma AndNotIsAndComplement(k: IntKind, a: int, b: int, cells: seq<Value>)
    requires InRange(k, a) && InRange(k, b)
    ensures BinOp(AND_NOT, IntV(k, a), IntV(k, b))
      == BinOp(AND, IntV(k, a), UnOp(XOR, IntV(k, b), cells).value)
  {
    AndNotViaComplement(k, a, b);
  }

  // ------------------------------------------------------------ strings

  /** On strings only + is defined among the arithmetic operators; it concatenates. */
  lemma StringArithmetic(op: Token, s: string, t: string)
    requires IsArith(op)
    ensures BinOp(op, StrV(s), StrV(t)) == if op == ADD then Ok(StrV(s + t)) else Err(InvalidBinaryOp)
  {
  }

  lemma {:induction false} StrLessIrreflexive(a: string)
    ensures !StrLess(a, a)
    decreases |a|
  {
    if |a| > 0 {
      StrLessIrreflexive(a[1..]);
    }
  }

  /** Exactly one of a < b, a == b, b < a holds. */
  lemma {:induction false} StrLessTrichotomy(a: string, b: string)
    ensures a == b || StrLess(a, b) || StrLess(b, a)
    ensures !(StrLess(a, b) && StrLess(b, a))
    decreases |a|
  {
    if |a| > 0 && |b| > 0 && a[0] == b[0] {
      StrLessTrichotomy(a[1..], b[1..]);
      if a[1..] == b[1..] {
        assert a == [a[0]] + a[1..] && b == [b[0]] + b[1..];
      }
    }
  }

  lemma {:induction false} StrLessTransitive(a: string, b: string, c: string)
    requires StrLess(a, b) && StrLess(b, c)
    ensures StrLess(a, c)
    decreases |a|
  {
    if |a| > 0 && a[0] == b[0] && b[0] == c[0] {
      StrLessTransitive(a[1..], b[1..], c[1..]);
    }
  }

  // ------------------------------------------------------------ orderings

  /**
   * On integers of one kind and on strings the four orderings agree with each
   * other and with ==: x > y is y < x, x <= y is !(x > y), x >= y is !(x < y),
   * and exactly one of x < y, x == y, x > y holds.
   */
  lemma OrderingsAgree(x: Value, y: Value)
    requires Canonical(x) && Canonical(y)
    requires (x.IntV? && y.IntV? && x.kind == y.kind) || (x.StrV? && y.StrV?)
    ensures BinOp(GTR, x, y) == BinOp(LSS, y, x)
    ensures BinOp(LEQ, x, y) == Ok(BoolV(!BinOp(GTR, x, y).value.b))
    ensures BinOp(GEQ, x, y) == Ok(BoolV(!BinOp(LSS, x, y).value.b))
    ensures BinOp(EQL, x, y).Ok?
    ensures [BinOp(LSS, x, y).value.b, BinOp(EQL, x, y).value.b, BinOp(GTR, x, y).value.b]
      in {[true, false, false], [false, true, false], [false, false, true]}
  {
    if x.StrV? {
      StrLessTrichotomy(x.s, y.s);
      StrLessIrreflexive(x.s);
    }
  }

  /** Operands of different dynamic types panic at the assertion on y. */
  lemma MismatchPanics(op: Token, x: Value, y: Value)
    requires Canonical(x) && Canonical(y)
    requires (x.IntV? && !(y.IntV? && y.kind == x.kind)) || (x.StrV? && !y.StrV?)
    requires op in {EQL, NEQ, LSS, LEQ, GTR, GEQ} || (op in {ADD, SUB, MUL, QUO, REM} && x.IntV?)
    ensures BinOp(op, x, y) == Err(TypeAssertion)
  {
  }

  /** Booleans support only == and !=; nil, functions and unsafe pointers none of the operators. */
  lemma NonNumericOperands(op: Token, x: Value, y: Value)
    requires Canonical(x) && Canonical(y)
    requires x.BoolV? || x.Nil? || x.FuncV? || x.BuiltinV? || x.UnsafePtrV? || x.PtrV?
    requires IsArith(op) || IsOrder(op)
    ensures BinOp(op, x, y) == Err(InvalidBinaryOp)
  {
  }
}
