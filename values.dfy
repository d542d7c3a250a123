/**
 * The interpreter's run-time values (watypes/value.go): the dynamic value a
 * Go interface{} holds at run time, the heap cells that *Value pointers point
 * to, their printing, Load/Store and Equals.
 */
module Values {
  import opened Results
  import opened MachineInt
  import opened GoTypes
  import opened Decimal

  /** A *Value: nil, or the index of a heap cell. */
  datatype Pointer = NilPtr | Ref(addr: nat)

  /** The dynamic values the interpreter produces and consumes. */
  datatype Value =
    | Nil                          // the nil interface{} (a call with no result)
    | BoolV(b: bool)
    | IntV(kind: IntKind, n: int)  // one of Go's eleven integer types
    | StrV(s: string)
    | PtrV(p: Pointer)             // a *Value: a global's cell
    | UnsafePtrV                   // unsafe.Pointer(nil), the zero of unsafe.Pointer
    | FuncV(name: string)          // an *ssa.Function used as a value
    | BuiltinV(name: string)       // an *ssa.Builtin used as a value

  /** An integer value is always within the range of its Go type. */
  predicate Canonical(v: Value) {
    v.IntV? ==> InRange(v.kind, v.n)
  }

  /** The dynamic value v is one that a variable of static type t can hold. */
  predicate HasType(v: Value, t: Type) {
    match Underlying(t)
    case Basic(kind) =>
      (kind == Bool && v.BoolV?)
      || (kind.Integer? && v.IntV? && v.kind == kind.k)
      || (kind == String && v.StrV?)
      || (kind == UnsafePointer && v.UnsafePtrV?)
    case Pointer(_) => v.PtrV?
    case _ => false
  }

  /** v is the zero value of its dynamic type. */
  predicate IsZero(v: Value) {
    v == BoolV(false) || (v.IntV? && v.n == 0) || v == StrV("") || v == PtrV(NilPtr) || v.UnsafePtrV?
  }

  // ---------------------------------------------------------------- printing

  function HexDigit(d: nat): (c: char)
    requires d < 16
  {
    "0123456789abcdef"[d]
  }

  function Hex(n: nat): (s: string)
    ensures |s| >= 1
    decreases n
  {
    if n < 16 then [HexDigit(n)] else Hex(n / 16) + [HexDigit(n % 16)]
  }

  /** The %p text of an address. */
  function AddressText(a: nat): (s: string)
    ensures |s| >= 3 && s[..2] == "0x"
  {
    "0x" + Hex(a)
  }

  /**
   * ToString / writeValue: scalars as %v prints them, a nil pointer and the nil
   * interface as <nil>, other pointers and functions as an address, and any
   * other dynamic type as <its type name>.
   */
  function ToString(v: Value): (s: string)
    ensures v.IntV? ==> ParseInt(s) == Some(v.n)
    ensures v.StrV? ==> s == v.s
    ensures (v.Nil? || v == PtrV(NilPtr)) ==> s == "<nil>"
    ensures (v.PtrV? && v.p.Ref?) || v.FuncV? || v.BuiltinV? ==> |s| >= 3 && s[..2] == "0x"
  {
    match v
    case Nil => "<nil>"
    case BoolV(b) => if b then "true" else "false"
    case IntV(_, n) => IntToStringRoundTrip(n); IntToString(n)
    case StrV(s) => s
    case PtrV(NilPtr) => "<nil>"
    case PtrV(Ref(a)) => AddressText(a)
    case UnsafePtrV => "<unsafe.Pointer>"
    case FuncV(_) => AddressText(0)
    case BuiltinV(_) => AddressText(0)
  }

  // ---------------------------------------------------------------- equality

  /**
   * Equals: x and y compared at x's dynamic type. y must have the same dynamic
   * type (the assertion y.(T) panics otherwise), pointers compare by identity,
   * and only bools, integers, strings and *Value are comparable.
   */
  function Equals(x: Value, y: Value): (r: Result<bool>)
    ensures r.Ok? ==> (r.value <==> x == y)
  {
    match x
    case BoolV(a) => if y.BoolV? then Ok(a == y.b) else Err(TypeAssertion)
    case IntV(k, a) => if y.IntV? && y.kind == k then Ok(a == y.n) else Err(TypeAssertion)
    case StrV(a) => if y.StrV? then Ok(a == y.s) else Err(TypeAssertion)
    case PtrV(p) => if y.PtrV? then Ok(p == y.p) else Err(TypeAssertion)
    case _ => Err(Uncomparable)
  }

  predicate Comparable(v: Value) {
    v.BoolV? || v.IntV? || v.StrV? || v.PtrV?
  }

  predicate SameDynamicType(x: Value, y: Value) {
    (x.BoolV? && y.BoolV?) || (x.IntV? && y.IntV? && x.kind == y.kind)
    || (x.StrV? && y.StrV?) || (x.PtrV? && y.PtrV?)
  }

  /** Equals succeeds exactly on two comparable values of the same dynamic type. */
  lemma EqualsDefinedness(x: Value, y: Value)
    ensures Equals(x, y).Ok? <==> Comparable(x) && SameDynamicType(x, y)
    ensures !Comparable(x) ==> Equals(x, y) == Err(Uncomparable)
    ensures Comparable(x) && !SameDynamicType(x, y) ==> Equals(x, y) == Err(TypeAssertion)
  {
  }

  /** Equals is symmetric wherever it is defined in both orders. */
  lemma EqualsSymmetric(x: Value, y: Value)
    requires Equals(x, y).Ok?
    ensures Equals(y, x) == Equals(x, y)
  {
  }

  // ---------------------------------------------------------------- the heap

  /** v refers to no cell outside a heap of n cells. */
  predicate PtrIn(v: Value, n: nat) {
    v.PtrV? && v.p.Ref? ==> v.p.addr < n
  }

  /** Every cell holds a canonical value whose pointer stays inside the heap. */
  predicate CellsOk(cells: seq<Value>) {
    forall i :: 0 <= i < |cells| ==> Canonical(cells[i]) && PtrIn(cells[i], |cells|)
  }

  /** Load: *p, which panics on a nil pointer. */
  function LoadFrom(cells: seq<Value>, p: Pointer): (r: Result<Value>)
    requires p.Ref? ==> p.addr < |cells|
    ensures r.Err? <==> p.NilPtr?
    ensures r.Err? ==> r.panic == NilDereference
  {
    match p
    case NilPtr => Err(NilDereference)
    case Ref(a) => Ok(cells[a])
  }

  /** Store: *p = v, which panics on a nil pointer and changes only the cell p names. */
  function StoreInto(cells: seq<Value>, p: Pointer, v: Value): (r: Result<seq<Value>>)
    requires p.Ref? ==> p.addr < |cells|
    ensures r.Err? <==> p.NilPtr?
    ensures r.Err? ==> r.panic == NilDereference
    ensures r.Ok? ==> |r.value| == |cells| && LoadFrom(r.value, p) == Ok(v)
    ensures r.Ok? ==> forall a :: 0 <= a < |cells| && a != p.addr ==> r.value[a] == cells[a]
  {
    match p
    case NilPtr => Err(NilDereference)
    case Ref(a) => Ok(cells[a := v])
  }

  /** A store of a well-formed value keeps the heap well formed. */
  lemma StoreKeepsCellsOk(cells: seq<Value>, p: Pointer, v: Value)
    requires CellsOk(cells) && (p.Ref? ==> p.addr < |cells|)
    requires Canonical(v) && PtrIn(v, |cells|)
    ensures StoreInto(cells, p, v).Ok? ==> CellsOk(StoreInto(cells, p, v).value)
  {
  }

  /** The heap of *Value cells that the globals' pointers point into. */
  class Memory {
    var cells: seq<Value>

    ghost predicate Valid()
      reads this
    {
      CellsOk(cells)
    }

    constructor ()
      ensures Valid() && cells == []
    {
      cells := [];
    }

    /** A fresh cell holding v (Go's `cell := v; &cell`). */
    method Alloc(v: Value) returns (p: Pointer)
      requires Valid() && Canonical(v) && PtrIn(v, |cells|)
      modifies this
      ensures Valid()
      ensures p == Ref(|old(cells)|) && cells == old(cells) + [v]
    {
      p := Ref(|cells|);
      cells := cells + [v];
    }

    /** Load(p) on the current heap. */
    function Load(p: Pointer): (r: Result<Value>)
      reads this
      requires Valid() && (p.Ref? ==> p.addr < |cells|)
      ensures r.Ok? ==> Canonical(r.value) && PtrIn(r.value, |cells|)
    {
      LoadFrom(cells, p)
    }

    /** Store(p, v) on the current heap. */
    method Store(p: Pointer, v: Value) returns (r: Result<()>)
      requires Valid() && Canonical(v) && PtrIn(v, |cells|) && (p.Ref? ==> p.addr < |cells|)
      modifies this
      ensures Valid()
      ensures r.Ok? <==> p.Ref?
      ensures StoreInto(old(cells), p, v).Ok? ==> cells == StoreInto(old(cells), p, v).value
      ensures p.NilPtr? ==> cells == old(cells) && r == Err(NilDereference)
    {
      match p
      case NilPtr =>
        r := Err(NilDereference);
      case Ref(a) =>
        cells := cells[a := v];
        r := Ok(());
    }
  }
}
