/**
 * Unary operators (waops/ops_un_op.go): pointer dereference, logical not,
 * arithmetic negation and bitwise complement on the interpreter's values.
 */
module OpsUnOp {
  import opened Results
  import opened MachineInt
  import opened Values
  import opened GoToken

  /**
   * unop(op, x). *x reads the cell x points to (Deref only chooses the type,
   * which Load ignores); !x needs a bool; -x and ^x need an integer and wrap
   * to its kind. Every other operator or operand panics.
   */
  function UnOp(op: Token, x: Value, cells: seq<Value>): (r: Result<Value>)
    requires PtrIn(x, |cells|)
    ensures op == MUL ==> r == (if x.PtrV? then LoadFrom(cells, x.p) else Err(TypeAssertion))
    ensures op != MUL && r.Ok? ==> Canonical(r.value) && (r.value.BoolV? || r.value.IntV?)
    ensures op == NOT ==> (r.Ok? <==> x.BoolV?)
    ensures op == NOT && x.BoolV? ==> r == Ok(BoolV(!x.b))
    ensures (op == SUB || op == XOR) ==> (r.Ok? <==> x.IntV?)
    ensures (op == SUB || op == XOR) && r.Ok? ==> r.value.IntV? && r.value.kind == x.kind
    ensures op !in {MUL, NOT, SUB, XOR} ==> r == Err(InvalidUnaryOp)
  {
    match op
    case MUL => if x.PtrV? then LoadFrom(cells, x.p) else Err(TypeAssertion)
    case NOT => if x.BoolV? then Ok(BoolV(!x.b)) else Err(TypeAssertion)
    case SUB => if x.IntV? then Ok(IntV(x.kind, Negate(x.kind, x.n))) else Err(InvalidUnaryOp)
    case XOR => if x.IntV? then Ok(IntV(x.kind, Complement(x.kind, x.n))) else Err(InvalidUnaryOp)
    case _ => Err(InvalidUnaryOp)
  }

  /** !!b == b. */
  lemma NotInvolutive(b: bool, cells: seq<Value>)
    ensures UnOp(NOT, UnOp(NOT, BoolV(b), cells).value, cells) == Ok(BoolV(b))
  {
  }

  /** -(-x) == x and ^(^x) == x for every integer value. */
  lemma NegateAndComplementInvolutive(k: IntKind, n: int, cells: seq<Value>)
    requires InRange(k, n)
    ensures UnOp(SUB, UnOp(SUB, IntV(k, n), cells).value, cells) == Ok(IntV(k, n))
    ensures UnOp(XOR, UnOp(XOR, IntV(k, n), cells).value, cells) == Ok(IntV(k, n))
  {
    NegateInvolutive(k, n);
    ComplementInvolutive(k, n);
  }

  /**
   * -x is the additive inverse of x modulo 2^w, the most negative signed value
   * is its own negation, and ^x is x XOR all ones.
   */
  lemma UnaryIntMeaning(k: IntKind, n: int, cells: seq<Value>)
    ensures UnOp(SUB, IntV(k, n), cells).Ok?
    ensures Wrap(k, n + UnOp(SUB, IntV(k, n), cells).value.n) == 0
    ensures Signed(k) ==> UnOp(SUB, IntV(k, MinOf(k)), cells) == Ok(IntV(k, MinOf(k)))
    ensures UnOp(XOR, IntV(k, n), cells) == Ok(IntV(k, Bitwise(XorBits, k, n, Modulus(k) - 1)))
  {
    assert UnOp(SUB, IntV(k, n), cells) == Ok(IntV(k, Negate(k, n)));
    NegateIsAdditiveInverse(k, n);
    if Signed(k) {
      NegateMin(k);
      assert UnOp(SUB, IntV(k, MinOf(k)), cells) == Ok(IntV(k, Negate(k, MinOf(k))));
    }
    assert UnOp(XOR, IntV(k, n), cells) == Ok(IntV(k, Complement(k, n)));
    ComplementIsXorMask(k, n);
  }

  /** Loading through a pointer that a Store just wrote gives the stored value. */
  lemma LoadAfterStore(cells: seq<Value>, a: nat, v: Value)
    requires a < |cells|
    ensures var stored := StoreInto(cells, Ref(a), v);
      stored.Ok? && UnOp(MUL, PtrV(Ref(a)), stored.value) == Ok(v)
  {
  }

  /** Dereferencing nil, or something that is not a *Value, panics. */
  lemma DerefFailures(x: Value, cells: seq<Value>)
    requires PtrIn(x, |cells|)
    ensures x == PtrV(NilPtr) ==> UnOp(MUL, x, cells) == Err(NilDereference)
    ensures !x.PtrV? ==> UnOp(MUL, x, cells) == Err(TypeAssertion)
  {
  }
}
