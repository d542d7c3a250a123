/**
 * The part of go/types the interpreter inspects: basic kinds, pointer types,
 * named types and their underlying types, and the helpers Default
 * (go/types.Default) and Deref (waops/utils.go).
 */
module GoTypes {
  import opened MachineInt

  /** go/types.BasicKind; the eleven integer kinds are folded into Integer. */
  datatype BasicKind =
    | Invalid
    | Bool
    | Integer(k: IntKind)
    | Float32 | Float64
    | Complex64 | Complex128
    | String
    | UnsafePointer
    | UntypedBool | UntypedInt | UntypedRune | UntypedFloat | UntypedComplex | UntypedString
    | UntypedNil

  /**
   * A Go type. Composite stands for every type the interpreter never has a case
   * for (slices, arrays, maps, structs, signatures, interfaces, channels).
   */
  datatype Type =
    | Basic(kind: BasicKind)
    | Pointer(elem: Type)
    | Named(name: string, under: Type)
    | Composite(desc: string)

  /** The IsUntyped flag of a basic kind's Info (UntypedNil carries it too). */
  predicate IsUntyped(kind: BasicKind) {
    kind.UntypedBool? || kind.UntypedInt? || kind.UntypedRune? || kind.UntypedFloat?
    || kind.UntypedComplex? || kind.UntypedString? || kind.UntypedNil?
  }

  /** types.Default: the type an untyped constant takes when nothing else decides it. */
  function Default(kind: BasicKind): (d: BasicKind)
    ensures !IsUntyped(kind) ==> d == kind
    ensures kind != UntypedNil ==> !IsUntyped(d)
  {
    match kind
    case UntypedBool => Bool
    case UntypedInt => Integer(Int)
    case UntypedRune => Integer(Int32)
    case UntypedFloat => Float64
    case UntypedComplex => Complex128
    case UntypedString => String
    case _ => kind
  }

  /** Type.Underlying: a named type's underlying type is never itself named. */
  function Underlying(t: Type): (u: Type)
    ensures !u.Named?
    ensures !t.Named? ==> u == t
  {
    match t
    case Named(_, under) => Underlying(under)
    case _ => t
  }

  /**
   * Deref: the element type when t is (a name for) a pointer type, and t
   * itself otherwise.
   */
  function Deref(t: Type): (e: Type)
    ensures Underlying(t).Pointer? ==> Underlying(t) == Pointer(e)
    ensures !Underlying(t).Pointer? ==> e == t
  {
    match Underlying(t)
    case Pointer(elem) => elem
    case _ => t
  }

  /** Deref removes exactly one level of pointer. */
  lemma DerefOneLevel(e: Type)
    ensures Deref(Pointer(e)) == e
    ensures Deref(Pointer(Pointer(e))) == Pointer(e)
  {
  }

  /** Deref sees through names, and leaves a non-pointer type alone, so it is idempotent there. */
  lemma DerefThroughName(name: string, t: Type)
    ensures Deref(Named(name, t)) == if Underlying(t).Pointer? then Deref(t) else Named(name, t)
    ensures !Underlying(t).Pointer? ==> Deref(Deref(t)) == Deref(t)
  {
  }
}
