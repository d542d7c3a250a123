/**
 * Constants (waops/ops_const_value.go): the run-time value of an SSA constant.
 * A nil constant takes its type's zero value; otherwise the underlying basic
 * kind decides, and integer kinds truncate the constant's 64-bit value to the
 * kind's width as a Go conversion does.
 */
module OpsConstValue {
  import opened Results
  import opened MachineInt
  import opened GoTypes
  import opened Values
  import opened OpsZero

  /** A go/constant value; FloatConst stands for float and complex constant values. */
  datatype ConstVal =
    | NilConst
    | BoolConst(b: bool)
    | StringConst(s: string)
    | IntConst(i: int)
    | FloatConst(x: real)

  /** An *ssa.Const: a value with its static type. */
  datatype Constant = Const(typ: Type, val: ConstVal)

  /** Const.Int64: an integer constant that fits int64, and 0 for one that does not. */
  function Int64Of(v: ConstVal): (r: Result<int>)
    ensures r.Ok? ==> InRange(Int64, r.value)
    ensures r.Ok? <==> v.IntConst?
    ensures v.FloatConst? ==> r == Err(Unmodelled)
  {
    match v
    case IntConst(i) => Ok(if InRange(Int64, i) then i else 0)
    case FloatConst(_) => Err(Unmodelled)
    case _ => Err(BadConstant)
  }

  /** Const.Uint64: an integer constant that fits uint64, and 0 for one that does not. */
  function Uint64Of(v: ConstVal): (r: Result<int>)
    ensures r.Ok? ==> InRange(Uint64, r.value)
    ensures r.Ok? <==> v.IntConst?
    ensures v.FloatConst? ==> r == Err(Unmodelled)
  {
    match v
    case IntConst(i) => Ok(if InRange(Uint64, i) then i else 0)
    case FloatConst(_) => Err(Unmodelled)
    case _ => Err(BadConstant)
  }

  /** A Unicode scalar value: what string(rune) can encode. */
  predicate ValidRune(r: int) {
    (0 <= r < 0xD800) || (0xE000 <= r < 0x11_0000)
  }

  /** string(r) for a rune r: that character, or U+FFFD when r is not a valid code point. */
  function RuneString(r: int): (s: string)
    ensures |s| == 1
    ensures ValidRune(r) ==> s[0] as int == r
    ensures !ValidRune(r) ==> s[0] == '�'
  {
    if ValidRune(r) then [r as char] else "�"
  }

  /** The case of constValue for a constant whose underlying type is the basic kind `kind`. */
  function BasicConst(kind: BasicKind, v: ConstVal): Result<Value> {
    match kind
    case String =>
      if v.StringConst? then Ok(StrV(v.s))
      else var n :- Int64Of(v); Ok(StrV(RuneString(Wrap(Int32, n))))
    case UntypedString =>
      if v.StringConst? then Ok(StrV(v.s))
      else var n :- Int64Of(v); Ok(StrV(RuneString(Wrap(Int32, n))))
    case Bool => if v.BoolConst? then Ok(BoolV(v.b)) else Err(BadConstant)
    case UntypedBool => if v.BoolConst? then Ok(BoolV(v.b)) else Err(BadConstant)
    case UntypedInt => var n :- Int64Of(v); Ok(IntV(Int, Wrap(Int, n)))
    case UntypedRune => var n :- Int64Of(v); Ok(IntV(Int32, Wrap(Int32, n)))
    case Integer(k) =>
      if Signed(k) then var n :- Int64Of(v); Ok(IntV(k, Wrap(k, n)))
      else var n :- Uint64Of(v); Ok(IntV(k, Wrap(k, n)))
    case Float32 => Err(Unmodelled)
    case Float64 => Err(Unmodelled)
    case UntypedFloat => Err(Unmodelled)
    case Complex64 => Err(Unmodelled)
    case Complex128 => Err(Unmodelled)
    case UntypedComplex => Err(Unmodelled)
    case _ => Err(BadConstant)
  }

  /** constValue(c). */
  function ConstValue(c: Constant): (r: Result<Value>)
    ensures r.Ok? ==> Canonical(r.value) && PtrIn(r.value, 0)
    ensures c.val.NilConst? ==> r == Zero(c.typ)
    ensures r.Ok? && !c.val.NilConst? ==>
      Underlying(c.typ).Basic? && HasType(r.value, Basic(Default(Underlying(c.typ).kind)))
    ensures Underlying(c.typ) in {Basic(String), Basic(UntypedString)} && c.val.StringConst? ==>
      r == Ok(StrV(c.val.s))
    ensures Underlying(c.typ) in {Basic(String), Basic(UntypedString)} && c.val.IntConst? ==>
      r == Ok(StrV(RuneString(Wrap(Int32, if InRange(Int64, c.val.i) then c.val.i else 0))))
    ensures Underlying(c.typ) in {Basic(Bool), Basic(UntypedBool)} && !c.val.NilConst? ==>
      r == (if c.val.BoolConst? then Ok(BoolV(c.val.b)) else Err(BadConstant))
  {
    if c.val.NilConst? then Zero(c.typ)
    else
      match Underlying(c.typ)
      case Basic(kind) => BasicConst(kind, c.val)
      case _ => Err(BadConstant)
  }

  /** An integer constant that fits its type is materialised unchanged. */
  lemma ConstIntExact(k: IntKind, i: int)
    requires InRange(k, i)
    ensures ConstValue(Const(Basic(Integer(k)), IntConst(i))) == Ok(IntV(k, i))
  {
    WrapInRange(k, i);
  }

  /**
   * An integer constant that fits 64 bits (signed kinds) or 64 unsigned bits
   * (unsigned kinds) is truncated to the kind's width: the value is the one in
   * the kind's range congruent to it modulo 2^width.
   */
  lemma ConstIntTruncates(k: IntKind, i: int)
    requires if Signed(k) then InRange(Int64, i) else InRange(Uint64, i)
    ensures var r := ConstValue(Const(Basic(Integer(k)), IntConst(i)));
      r.Ok? && r.value.IntV? && r.value.kind == k
      && InRange(k, r.value.n) && (r.value.n - i) % Modulus(k) == 0
  {
  }

  /** An integer constant beyond the 64-bit conversion's range becomes 0. */
  lemma ConstIntOverflowIsZero(k: IntKind, i: int)
    requires if Signed(k) then !InRange(Int64, i) else !InRange(Uint64, i)
    ensures ConstValue(Const(Basic(Integer(k)), IntConst(i))) == Ok(IntV(k, 0))
  {
    WrapInRange(k, 0);
  }

  /** Untyped constants are materialised at their default type. */
  lemma UntypedConstDefault(kind: BasicKind, v: ConstVal)
    requires IsUntyped(kind) && kind != UntypedNil && !v.NilConst?
    ensures ConstValue(Const(Basic(kind), v)) == ConstValue(Const(Basic(Default(kind)), v))
  {
  }

  /** A non-nil constant of a named type is materialised as one of its underlying type. */
  lemma NamedConst(name: string, t: Type, v: ConstVal)
    requires !v.NilConst?
    ensures ConstValue(Const(Named(name, t), v)) == ConstValue(Const(t, v))
  {
  }

  /** An integer constant of string type denotes the string of that one rune. */
  lemma RuneConstant(i: int)
    requires InRange(Int32, i)
    ensures ConstValue(Const(Basic(String), IntConst(i)))
      == Ok(StrV(if ValidRune(i) then [i as char] else "�"))
  {
    WrapInRange(Int32, i);
  }
}
