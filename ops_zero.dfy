/**
 * Zero values (waops/ops_zero.go): the value a freshly declared variable of a
 * type starts with. Only basic types and pointer types have one; an untyped
 * basic kind takes the zero of its default type, and untyped nil has none.
 */
module OpsZero {
  import opened Results
  import opened GoTypes
  import opened Values

  /** The static type whose values Zero(t) produces. */
  function ZeroType(t: Type): Type {
    if t.Basic? then Basic(Default(t.kind)) else t
  }

  /**
   * zero(t). It matches t itself, not its underlying type, so a named type
   * has no zero value here.
   */
  function Zero(t: Type): (r: Result<Value>)
    ensures r.Ok? ==> IsZero(r.value) && HasType(r.value, ZeroType(t))
    ensures r.Ok? ==> Canonical(r.value) && PtrIn(r.value, 0)
    ensures r.Ok? ==> t.Pointer? || (t.Basic? && !IsUntyped(Default(t.kind)))
    ensures t.Pointer? ==> r.Ok?
  {
    match t
    case Basic(kind) =>
      if kind == UntypedNil then Err(NoZeroValue)
      else
        var b := if IsUntyped(kind) then Default(kind) else kind;
        (match b
        case Bool => Ok(BoolV(false))
        case Integer(k) => Ok(IntV(k, 0))
        case Float32 => Err(Unmodelled)
        case Float64 => Err(Unmodelled)
        case Complex64 => Err(Unmodelled)
        case Complex128 => Err(Unmodelled)
        case String => Ok(StrV(""))
        case UnsafePointer => Ok(UnsafePtrV)
        case _ => Err(NoZeroValue))
    case Pointer(_) => Ok(PtrV(NilPtr))
    case _ => Err(NoZeroValue)
  }

  /** Zero's result is the only zero value of the type it is made for. */
  lemma ZeroUnique(t: Type, v: Value)
    requires Zero(t).Ok? && IsZero(v) && HasType(v, ZeroType(t))
    ensures Zero(t) == Ok(v)
  {
  }

  /** An untyped kind other than nil has the zero value of its default type; untyped nil has none. */
  lemma ZeroOfUntyped(kind: BasicKind)
    ensures kind != UntypedNil ==> Zero(Basic(kind)) == Zero(Basic(Default(kind)))
    ensures Zero(Basic(UntypedNil)) == Err(NoZeroValue)
  {
  }

  /** Exactly the basic kinds bool, the integers, string and unsafe.Pointer and their untyped forms have a zero here. */
  lemma ZeroDefinedFor(t: Type)
    ensures Zero(t).Ok? <==>
      t.Pointer?
      || (t.Basic? && var b := Default(t.kind);
          b == Bool || b.Integer? || b == String || b == UnsafePointer)
    ensures t.Named? || t.Composite? ==> Zero(t) == Err(NoZeroValue)
  {
  }
}
