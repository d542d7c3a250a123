/**
 * The statement compiler of ch16/examples/wcc/wcc.go. A source line of the
 * w language is either `name = expression` (read by the Go parser as
 * `name < expression`, after every `=` has been replaced by `<`) or
 * `print(x)`. processExpr walks the expression tree and writes one LLVM-IR
 * line per leaf and per arithmetic operator, each defining the next
 * temporary `%tmp<n>`; processPrint writes a call of printf. The global
 * state is the temporary counter varNo, the table vars of defined variables
 * (name to the line that defined it), the error flag srcError and the
 * current line number lineNo.
 *
 * The lines written to the .ll file are kept as LlLine values; Render gives
 * the exact text of each. A small interpreter for those lines (Run) gives
 * them a meaning, so that the value the generated code computes can be
 * compared with the value of the source expression (Eval).
 */
module Wcc {
  import opened Results
  import opened MachineInt
  import opened Decimal
  import opened GoToken

  // ------------------------------------------------------------ source syntax

  /** The go/ast expressions the compiler looks at; every other kind is OtherExpr. */
  datatype Expr =
    | Binary(op: Token, x: Expr, y: Expr)   // *ast.BinaryExpr
    | Ident(name: string)                   // *ast.Ident
    | BasicLit(value: string)               // *ast.BasicLit, its literal text
    | Paren(inner: Expr)                    // *ast.ParenExpr
    | CallExpr(fun: Expr, args: seq<Expr>)  // *ast.CallExpr
    | OtherExpr

  // ------------------------------------------------------------ generated code

  datatype Reg = TmpReg(n: int) | NamedReg(name: string)

  datatype LlOperand = RegOp(reg: Reg) | LitOp(text: string)

  /** The three shapes of line the compiler writes. */
  datatype LlLine =
    | Add0(dest: Reg, src: LlOperand)                  // <dest> = add i64 <src>, 0
    | Arith(tmp: int, opcode: string, left: int, right: int) // %tmp<tmp> = <opcode> i64 %tmp<left>, %tmp<right>
    | Printf(arg: LlOperand)                           // call i32 (i8*, ...) @printf(i8* %fmt, i64 <arg>)

  /** opMap: the LLVM instruction of each arithmetic operator. */
  const OpMap: map<Token, string> := map[ADD := "add", SUB := "sub", MUL := "mul", QUO := "sdiv"]

  function RegText(r: Reg): string {
    match r
    case TmpReg(n) => "%tmp" + IntToString(n)
    case NamedReg(name) => "%" + name
  }

  function OperandText(o: LlOperand): string {
    match o
    case RegOp(r) => RegText(r)
    case LitOp(text) => text
  }

  /** The text written to the .ll file for a line. */
  function Render(l: LlLine): (s: string)
    ensures |s| > 0 && s[|s| - 1] == '\n'
  {
    match l
    case Add0(dest, src) => "  " + RegText(dest) + " = add i64 " + OperandText(src) + ", 0\n"
    case Arith(dest, opcode, a, b) =>
      "  %tmp" + IntToString(dest) + " = " + opcode + " i64 %tmp" + IntToString(a) + ", %tmp" + IntToString(b) + "\n"
    case Printf(arg) => "  call i32 (i8*, ...) @printf(i8* %fmt, i64 " + OperandText(arg) + ")\n"
  }

  /** The temporary a line defines, if any. */
  function DefinedTemp(l: LlLine): Option<int> {
    match l
    case Add0(dest, _) => if dest.TmpReg? then Some(dest.n) else None
    case Arith(tmp, _, _, _) => Some(tmp)
    case Printf(_) => None
  }

  /**
   * Whether lines define consecutive temporaries: after %tmp<k>, each line
   * that defines a temporary defines the next one. The result is the last
   * one defined (k when there is none), or None once the order breaks.
   */
  function LastTemp(code: seq<LlLine>, k: int): Option<int>
    decreases |code|
  {
    if |code| == 0 then Some(k)
    else
      match DefinedTemp(code[0])
      case None => LastTemp(code[1..], k)
      case Some(n) => if n == k + 1 then LastTemp(code[1..], n) else None
  }

  // ------------------------------------------------------------ compiler state

  /** The message kinds the compiler prints (the wording is not modelled). */
  datatype ErrorKind =
    | AssignToNonVariable   // the left side of an assignment is not a variable
    | Redefinition          // the variable is already defined
    | UnsupportedOperator   // a binary operator other than = + - * /
    | UndefinedVariable     // a reference to an undefined variable
    | UnsupportedExpression // an expression that is none of the above
    | PrintArity            // print takes exactly one value
    | PrintOperand          // print takes only a variable or a literal

  datatype Diag = Diag(line: int, kind: ErrorKind)

  /** The global state: varNo, vars, srcError, the .ll lines written and the messages printed. */
  datatype CState = CState(varNo: int, vars: map<string, int>, srcError: bool, ll: seq<LlLine>, diags: seq<Diag>)

  /** processExpr's two results and the state it leaves. */
  datatype Outcome = Outcome(idx: int, ok: bool, st: CState)

  /** The error exit: set srcError, print one message, return (-1, false). */
  function Fail(st: CState, line: int, kind: ErrorKind): Outcome {
    Outcome(-1, false, st.(srcError := true, diags := st.diags + [Diag(line, kind)]))
  }

  /** processExpr on line `line`, as a function of the state it starts from. */
  function CompileExpr(e: Expr, line: int, st: CState): (r: Outcome)
    ensures |st.ll| <= |r.st.ll| && r.st.ll[..|st.ll|] == st.ll
    ensures st.varNo <= r.st.varNo
    decreases e
  {
    match e
    case Binary(op, x, y) =>
      if op == LSS then
        if !x.Ident? then Fail(st, line, AssignToNonVariable)
        else if x.name in st.vars then Fail(st, line, Redefinition)
        else
          var r := CompileExpr(y, line, st);
          var ll := if r.ok then r.st.ll + [Add0(NamedReg(x.name), RegOp(TmpReg(r.idx)))] else r.st.ll;
          Outcome(-1, r.ok, r.st.(ll := ll, vars := r.st.vars[x.name := line]))
      else if op in OpMap then
        var a := CompileExpr(x, line, st);
        ArithStep(OpMap[op], a, CompileExpr(y, line, a.st))
      else Fail(st, line, UnsupportedOperator)
    case Ident(name) =>
      if name !in st.vars then Fail(st, line, UndefinedVariable)
      else
        var n := st.varNo + 1;
        Outcome(n, true, st.(varNo := n, ll := st.ll + [Add0(TmpReg(n), RegOp(NamedReg(name)))]))
    case BasicLit(value) =>
      var n := st.varNo + 1;
      Outcome(n, true, st.(varNo := n, ll := st.ll + [Add0(TmpReg(n), LitOp(value))]))
    case Paren(inner) => CompileExpr(inner, line, st)
    case _ => Fail(st, line, UnsupportedExpression)
  }

  /**
   * An arithmetic node once both operands have been processed, the right one
   * from the state the left one left (it is only looked at when the left one
   * compiled): the next temporary is the operator applied to both.
   */
  function ArithStep(opcode: string, a: Outcome, b: Outcome): Outcome {
    if !a.ok then Outcome(-1, false, a.st)
    else if !b.ok then Outcome(-1, false, b.st)
    else
      var n := b.st.varNo + 1;
      Outcome(n, true, b.st.(varNo := n, ll := b.st.ll + [Arith(n, opcode, a.idx, b.idx)]))
  }

  /** processPrint on the arguments of a call: whether code was generated, and the new state. */
  function CompilePrint(args: seq<Expr>, line: int, st: CState): (r: (bool, CState))
    ensures r.1.varNo == st.varNo && r.1.vars == st.vars
    ensures r.0 ==> (r.1.srcError == st.srcError && r.1.diags == st.diags && |args| == 1 && |r.1.ll| == |st.ll| + 1
      && r.1.ll[..|st.ll|] == st.ll && r.1.ll[|st.ll|].Printf?)
    ensures !r.0 ==> r.1.srcError && r.1.diags == st.diags + [Diag(line, if |args| != 1 then PrintArity else PrintOperand)] && r.1.ll == st.ll
  {
    if |args| != 1 then (false, Fail(st, line, PrintArity).st)
    else
      match args[0]
      case BasicLit(value) => (true, st.(ll := st.ll + [Printf(LitOp(value))]))
      case Ident(name) => (true, st.(ll := st.ll + [Printf(RegOp(NamedReg(name)))]))
      case _ => (false, Fail(st, line, PrintOperand).st)
  }

  // ------------------------------------------------------------ reference definitions

  /** No assignment anywhere in the expression. */
  predicate NoAssign(e: Expr) {
    match e
    case Binary(op, x, y) => op != LSS && NoAssign(x) && NoAssign(y)
    case Paren(inner) => NoAssign(inner)
    case _ => true
  }

  /** An assignment, possibly in parentheses: its result index is -1. */
  predicate IsAssign(e: Expr) {
    match e
    case Binary(op, _, _) => op == LSS
    case Paren(inner) => IsAssign(inner)
    case _ => false
  }

  /** Made of + - * /, variables, literals and parentheses only. */
  predicate Arithmetic(e: Expr) {
    match e
    case Binary(op, x, y) => op in OpMap && Arithmetic(x) && Arithmetic(y)
    case Ident(_) => true
    case BasicLit(_) => true
    case Paren(inner) => Arithmetic(inner)
    case _ => false
  }

  function FreeVars(e: Expr): set<string> {
    match e
    case Binary(_, x, y) => FreeVars(x) + FreeVars(y)
    case Ident(name) => {name}
    case Paren(inner) => FreeVars(inner)
    case _ => {}
  }

  /** How many temporaries a compiled expression defines: one per leaf and per operator; an assignment defines none of its own. */
  function Temps(e: Expr): nat {
    match e
    case Binary(op, x, y) => if op == LSS then Temps(y) else Temps(x) + Temps(y) + 1
    case Ident(_) => 1
    case BasicLit(_) => 1
    case Paren(inner) => Temps(inner)
    case _ => 0
  }

  // ------------------------------------------------------------ meaning

  /** The value of a literal for LLVM's i64: decimal text in the 64-bit range. */
  function LitValue(text: string): (r: Option<int>)
    ensures r.Some? ==> InRange(Int64, r.value)
  {
    match ParseInt(text)
    case Some(v) => if InRange(Int64, v) then Some(v) else None
    case None => None
  }

  /**
   * The operators of the w language on 64-bit signed integers: + - * wrap
   * around, / truncates, and division by zero or the one overflowing
   * division has no value.
   */
  function Apply(op: Token, a: int, b: int): (r: Option<int>)
    ensures InRange(Int64, a) && InRange(Int64, b) && r.Some? ==> InRange(Int64, r.value)
  {
    if op == ADD then Some(Wrap(Int64, a + b))
    else if op == SUB then Some(Wrap(Int64, a - b))
    else if op == MUL then Some(Wrap(Int64, a * b))
    else if op == QUO then
      if b == 0 || (a == MinOf(Int64) && b == -1) then None
      else
        QuotInRange(a, b);
        Some(Quot(a, b))
    else None
  }

  /** The value of an expression, each variable holding its value in env. */
  function Eval(e: Expr, env: map<string, int>): (r: Option<int>)
    ensures EnvOk(env) && r.Some? ==> InRange(Int64, r.value)
    decreases e
  {
    match e
    case Binary(op, x, y) =>
      (match (Eval(x, env), Eval(y, env))
       case (Some(a), Some(b)) => Apply(op, a, b)
       case _ => None)
    case Ident(name) => if name in env then Some(env[name]) else None
    case BasicLit(value) => LitValue(value)
    case Paren(inner) => Eval(inner, env)
    case _ => None
  }

  /** Every variable holds a 64-bit value. */
  predicate EnvOk(env: map<string, int>) {
    forall x :: x in env ==> InRange(Int64, env[x])
  }

  /** The registers and the numbers printf has printed. */
  datatype Machine = Machine(regs: map<Reg, int>, out: seq<int>)

  function OperandValue(o: LlOperand, m: Machine): Option<int> {
    match o
    case RegOp(r) => if r in m.regs then Some(m.regs[r]) else None
    case LitOp(text) => LitValue(text)
  }

  /** The i64 instructions: add, sub and mul wrap; sdiv is undefined on a zero divisor and on overflow. */
  function ArithValue(opcode: string, a: int, b: int): Option<int> {
    if opcode == "add" then Some(Wrap(Int64, a + b))
    else if opcode == "sub" then Some(Wrap(Int64, a - b))
    else if opcode == "mul" then Some(Wrap(Int64, a * b))
    else if opcode == "sdiv" then (if b == 0 || (a == MinOf(Int64) && b == -1) then None else Some(Quot(a, b)))
    else None
  }

  function ExecLine(l: LlLine, m: Machine): Option<Machine> {
    match l
    case Add0(dest, src) =>
      (match OperandValue(src, m)
       case Some(v) => Some(m.(regs := m.regs[dest := Wrap(Int64, v + 0)]))
       case None => None)
    case Arith(dest, opcode, a, b) =>
      if TmpReg(a) in m.regs && TmpReg(b) in m.regs then
        (match ArithValue(opcode, m.regs[TmpReg(a)], m.regs[TmpReg(b)])
         case Some(v) => Some(m.(regs := m.regs[TmpReg(dest) := v]))
         case None => None)
      else None
    case Printf(arg) =>
      (match OperandValue(arg, m)
       case Some(v) => Some(m.(out := m.out + [v]))
       case None => None)
  }

  /** Running lines in order; None once a line is undefined. */
  function Run(code: seq<LlLine>, m: Machine): Option<Machine>
    decreases |code|
  {
    if |code| == 0 then Some(m)
    else
      match ExecLine(code[0], m)
      case Some(m1) => Run(code[1..], m1)
      case None => None
  }

  // ------------------------------------------------------------ the compiler

  class Compiler {
    var lineNo: int
    var varNo: int
    var vars: map<string, int>
    var srcError: bool
    var ll: seq<LlLine>
    var diags: seq<Diag>

    function State(): CState
      reads this
    {
      CState(varNo, vars, srcError, ll, diags)
    }

    /** The globals' initial values, with nothing written yet. */
    constructor ()
      ensures lineNo == 0 && State() == CState(0, map[], false, [], [])
    {
      lineNo, varNo, vars, srcError, ll, diags := 0, 0, map[], false, [], [];
    }

    method Report(kind: ErrorKind)
      modifies this
      ensures lineNo == old(lineNo) && State() == Fail(old(State()), lineNo, kind).st
    {
      srcError := true;
      diags := diags + [Diag(lineNo, kind)];
    }

    method ProcessExpr(e: Expr) returns (idx: int, ok: bool)
      modifies this
      ensures lineNo == old(lineNo)
      ensures Outcome(idx, ok, State()) == CompileExpr(e, lineNo, old(State()))
      decreases e
    {
      match e
      case Binary(op, x, y) =>
        if op == LSS {
          if !x.Ident? {
            Report(AssignToNonVariable);
            return -1, false;
          }
          if x.name in vars {
            Report(Redefinition);
            return -1, false;
          }
          var idx2, b2 := ProcessExpr(y);
          if b2 {
            ll := ll + [Add0(NamedReg(x.name), RegOp(TmpReg(idx2)))];
          }
          vars := vars[x.name := lineNo];
          return -1, b2;
        } else if op in OpMap {
          var idxLeft, bLeft := ProcessExpr(x);
          if !bLeft {
            return -1, false;
          }
          var idxRight, bRight := ProcessExpr(y);
          if !bRight {
            return -1, false;
          }
          varNo := varNo + 1;
          ll := ll + [Arith(varNo, OpMap[op], idxLeft, idxRight)];
          return varNo, true;
        } else {
          Report(UnsupportedOperator);
          return -1, false;
        }
      case Ident(name) =>
        if name !in vars {
          Report(UndefinedVariable);
          return -1, false;
        }
        varNo := varNo + 1;
        ll := ll + [Add0(TmpReg(varNo), RegOp(NamedReg(name)))];
        return varNo, true;
      case BasicLit(value) =>
        varNo := varNo + 1;
        ll := ll + [Add0(TmpReg(varNo), LitOp(value))];
        return varNo, true;
      case Paren(inner) =>
        idx, ok := ProcessExpr(inner);
      case _ =>
        Report(UnsupportedExpression);
        return -1, false;
    }

    method ProcessPrint(args: seq<Expr>) returns (ok: bool)
      modifies this
      ensures lineNo == old(lineNo)
      ensures (ok, State()) == CompilePrint(args, lineNo, old(State()))
    {
      if |args| != 1 {
        Report(PrintArity);
        return false;
      }
      match args[0]
      case BasicLit(value) =>
        ll := ll + [Printf(LitOp(value))];
        return true;
      case Ident(name) =>
        ll := ll + [Printf(RegOp(NamedReg(name)))];
        return true;
      case _ =>
        Report(PrintOperand);
        return false;
    }
  }

  // ------------------------------------------------------------ temporaries, errors and variables

  lemma {:induction false} LastTempAppend(p: seq<LlLine>, q: seq<LlLine>, k: int)
    ensures LastTemp(p + q, k) == match LastTemp(p, k) case Some(k1) => LastTemp(q, k1) case None => None
    decreases |p|
  {
    if |p| == 0 {
      assert p + q == q;
    } else {
      assert (p + q)[0] == p[0];
      assert (p + q)[1..] == p[1..] + q;
      match DefinedTemp(p[0])
      case None => LastTempAppend(p[1..], q, k);
      case Some(n) => LastTempAppend(p[1..], q, n);
    }
  }

  /** Consecutive temporaries after %tmp<k> are all numbered above k, and the last is not below k. */
  lemma {:induction false} LastTempAbove(code: seq<LlLine>, k: int)
    requires LastTemp(code, k).Some?
    ensures LastTemp(code, k).value >= k
    ensures forall i :: 0 <= i < |code| && DefinedTemp(code[i]).Some? ==> DefinedTemp(code[i]).value > k
    decreases |code|
  {
    if |code| > 0 {
      var k1 := if DefinedTemp(code[0]).Some? then k + 1 else k;
      LastTempAbove(code[1..], k1);
      assert forall i :: 1 <= i < |code| ==> code[i] == code[1..][i - 1];
    }
  }

  /** What was written between two states whose lines extend one another. */
  lemma SliceSplit(l0: seq<LlLine>, l1: seq<LlLine>, l2: seq<LlLine>)
    requires |l0| <= |l1| <= |l2| && l1[..|l0|] == l0 && l2[..|l1|] == l1
    ensures l2[|l0|..] == l1[|l0|..] + l2[|l1|..]
  {
    assert l2[|l0|..|l1|] == l1[|l0|..];
  }

  lemma NoAssignIsNotAssign(e: Expr)
    requires NoAssign(e)
    ensures !IsAssign(e)
  {
  }

  /**
   * The numbering of the temporaries a call of processExpr writes; Numbering
   * proves it for every expression.
   */
  predicate Numbered(e: Expr, line: int, st: CState) {
    NumberedOutcome(e, st, CompileExpr(e, line, st))
  }

  predicate NumberedOutcome(e: Expr, st: CState, r: Outcome) {
    |st.ll| <= |r.st.ll|
    && LastTemp(r.st.ll[|st.ll|..], st.varNo) == Some(r.st.varNo)
    && (r.ok ==> r.st.varNo == st.varNo + Temps(e) && r.idx == if IsAssign(e) then -1 else r.st.varNo)
    && (!r.ok ==> r.idx == -1)
  }

  /**
   * Temporaries are numbered consecutively: the lines processExpr writes
   * define exactly %tmp<varNo+1>, ..., %tmp<varNo'>, in that order and each
   * once, also when it stops at an error. An expression that compiles takes
   * one temporary per leaf and per operator and returns the last one; an
   * assignment and an error return -1.
   */
  lemma {:induction false} Numbering(e: Expr, line: int, st: CState)
    ensures Numbered(e, line, st)
    decreases e, 1
  {
    match e
    case Binary(op, x, y) =>
      if op == LSS {
        if x.Ident? && x.name !in st.vars {
          Numbering(y, line, st);
          NumberingAssign(x.name, y, line, st);
        } else {
          NumberingFail(e, line, st);
        }
      } else if op in OpMap {
        NumberingArith(op, x, y, line, st);
      } else {
        NumberingFail(e, line, st);
      }
    case Ident(name) =>
      if name in st.vars {
        NumberingLeaf(e, line, st);
      } else {
        NumberingFail(e, line, st);
      }
    case BasicLit(value) =>
      NumberingLeaf(e, line, st);
    case Paren(inner) =>
      Numbering(inner, line, st);
    case CallExpr(_, _) =>
      NumberingFail(e, line, st);
    case OtherExpr =>
      NumberingFail(e, line, st);
  }

  lemma NumberingFail(e: Expr, line: int, st: CState)
    requires var r := CompileExpr(e, line, st); !r.ok && r.idx == -1 && r.st.ll == st.ll && r.st.varNo == st.varNo
    ensures Numbered(e, line, st)
  {
    assert CompileExpr(e, line, st).st.ll[|st.ll|..] == [];
  }

  lemma NumberingLeaf(e: Expr, line: int, st: CState)
    requires e.Ident? || e.BasicLit?
    requires CompileExpr(e, line, st).ok
    ensures Numbered(e, line, st)
  {
    var r := CompileExpr(e, line, st);
    var src := if e.Ident? then RegOp(NamedReg(e.name)) else LitOp(e.value);
    assert r.st.ll[|st.ll|..] == [Add0(TmpReg(st.varNo + 1), src)];
  }

  lemma NumberingAssign(x: string, y: Expr, line: int, st: CState)
    requires x !in st.vars && Numbered(y, line, st)
    ensures Numbered(Binary(LSS, Ident(x), y), line, st)
  {
    var r := CompileExpr(Binary(LSS, Ident(x), y), line, st);
    var ry := CompileExpr(y, line, st);
    if ry.ok {
      var l := Add0(NamedReg(x), RegOp(TmpReg(ry.idx)));
      assert r.st.ll[|st.ll|..] == ry.st.ll[|st.ll|..] + [l];
      LastTempAppend(ry.st.ll[|st.ll|..], [l], st.varNo);
    } else {
      assert r.st.ll == ry.st.ll;
    }
  }

  lemma {:induction false} NumberingArith(op: Token, x: Expr, y: Expr, line: int, st: CState)
    requires op in OpMap && op != LSS
    ensures Numbered(Binary(op, x, y), line, st)
    decreases Binary(op, x, y), 0
  {
    var a := CompileExpr(x, line, st);
    var b := CompileExpr(y, line, a.st);
    Numbering(x, line, st);
    Numbering(y, line, a.st);
    NumberingArithStep(op, x, y, st, a, b);
  }

  lemma NumberingArithStep(op: Token, x: Expr, y: Expr, st: CState, a: Outcome, b: Outcome)
    requires op in OpMap && op != LSS
    requires |st.ll| <= |a.st.ll| <= |b.st.ll| && a.st.ll[..|st.ll|] == st.ll && b.st.ll[..|a.st.ll|] == a.st.ll
    requires st.varNo <= a.st.varNo <= b.st.varNo
    requires NumberedOutcome(x, st, a) && NumberedOutcome(y, a.st, b)
    ensures NumberedOutcome(Binary(op, x, y), st, ArithStep(OpMap[op], a, b))
  {
    if a.ok {
      ChainTemps(st.ll, a.st.ll, b.st.ll, st.varNo, a.st.varNo, b.st.varNo);
      if b.ok {
        NumberingArithBoth(op, x, y, st, a, b);
      }
    }
  }

  lemma NumberingArithBoth(op: Token, x: Expr, y: Expr, st: CState, a: Outcome, b: Outcome)
    requires op in OpMap && op != LSS && a.ok && b.ok
    requires |st.ll| <= |b.st.ll| && st.varNo <= b.st.varNo
    requires LastTemp(b.st.ll[|st.ll|..], st.varNo) == Some(b.st.varNo)
    requires a.st.varNo == st.varNo + Temps(x)
    requires b.st.varNo == a.st.varNo + Temps(y)
    ensures NumberedOutcome(Binary(op, x, y), st, ArithStep(OpMap[op], a, b))
  {
    var n := b.st.varNo + 1;
    var l := Arith(n, OpMap[op], a.idx, b.idx);
    var r := ArithStep(OpMap[op], a, b);
    assert r.st.ll == b.st.ll + [l] && r.st.varNo == n && r.ok && r.idx == n;
    AppendTemp(st.ll, b.st.ll, l, r.st.ll, st.varNo, n);
  }

  /** Two runs of consecutive temporaries, one after the other, make one. */
  lemma ChainTemps(l0: seq<LlLine>, l1: seq<LlLine>, l2: seq<LlLine>, v0: int, v1: int, v2: int)
    requires |l0| <= |l1| <= |l2| && l1[..|l0|] == l0 && l2[..|l1|] == l1
    requires LastTemp(l1[|l0|..], v0) == Some(v1)
    requires LastTemp(l2[|l1|..], v1) == Some(v2)
    ensures LastTemp(l2[|l0|..], v0) == Some(v2)
  {
    SliceSplit(l0, l1, l2);
    LastTempAppend(l1[|l0|..], l2[|l1|..], v0);
  }

  lemma AppendTemp(l0: seq<LlLine>, l1: seq<LlLine>, l: LlLine, l2: seq<LlLine>, v0: int, n: int)
    requires |l0| <= |l1| && DefinedTemp(l) == Some(n) && l2 == l1 + [l]
    requires LastTemp(l1[|l0|..], v0) == Some(n - 1)
    ensures LastTemp(l2[|l0|..], v0) == Some(n)
  {
    assert l2[|l0|..] == l1[|l0|..] + [l];
    LastTempAppend(l1[|l0|..], [l], v0);
    assert [l][1..] == [];
  }

  /**
   * On an error srcError is set and exactly one message is printed, for the
   * current line; on success neither changes.
   */
  lemma {:induction false} Errors(e: Expr, line: int, st: CState)
    ensures var r := CompileExpr(e, line, st);
      (!r.ok ==> r.st.srcError && |r.st.diags| == |st.diags| + 1 && r.st.diags[..|st.diags|] == st.diags
                 && r.st.diags[|st.diags|].line == line)
      && (r.ok ==> r.st.srcError == st.srcError && r.st.diags == st.diags)
    decreases e
  {
    match e
    case Binary(op, x, y) =>
      if op == LSS {
        if x.Ident? && x.name !in st.vars {
          Errors(y, line, st);
        }
      } else if op in OpMap {
        var a := CompileExpr(x, line, st);
        Errors(x, line, st);
        if a.ok {
          Errors(y, line, a.st);
        }
      }
    case Paren(inner) =>
      Errors(inner, line, st);
    case _ =>
  }

  /**
   * The table of variables only grows: no entry ever changes, each new one
   * records the current line, and an expression without assignment leaves
   * the table as it was.
   */
  lemma {:induction false} Vars(e: Expr, line: int, st: CState)
    ensures var r := CompileExpr(e, line, st);
      (forall x :: x in st.vars ==> x in r.st.vars && r.st.vars[x] == st.vars[x])
      && (forall x :: x in r.st.vars && x !in st.vars ==> r.st.vars[x] == line)
      && (NoAssign(e) ==> r.st.vars == st.vars)
    decreases e
  {
    match e
    case Binary(op, x, y) =>
      if op == LSS {
        if x.Ident? && x.name !in st.vars {
          Vars(y, line, st);
        }
      } else if op in OpMap {
        var a := CompileExpr(x, line, st);
        Vars(x, line, st);
        if a.ok {
          Vars(y, line, a.st);
        }
      }
    case Paren(inner) =>
      Vars(inner, line, st);
    case _ =>
  }

  /**
   * The checks of an assignment: a left side that is not a variable and a
   * variable defined before are errors that write nothing; otherwise the
   * variable is recorded whether or not its right side compiles, and on
   * success the last line copies the right side's temporary into %name.
   */
  lemma AssignChecks(lhs: Expr, y: Expr, line: int, st: CState)
    ensures var r := CompileExpr(Binary(LSS, lhs, y), line, st);
      r.idx == -1
      && (!lhs.Ident? ==> r == Fail(st, line, AssignToNonVariable))
      && (lhs.Ident? && lhs.name in st.vars ==> r == Fail(st, line, Redefinition))
      && (lhs.Ident? && lhs.name !in st.vars ==>
            var ry := CompileExpr(y, line, st);
            lhs.name in r.st.vars && r.st.vars[lhs.name] == line && r.ok == ry.ok
            && (r.ok ==> r.st.ll == ry.st.ll + [Add0(NamedReg(lhs.name), RegOp(TmpReg(ry.idx)))]))
  {
  }

  /**
   * An expression without assignment compiles exactly when it is made of
   * + - * /, literals, parentheses and variables that are all defined.
   */
  lemma {:induction false} CompilesIff(e: Expr, line: int, st: CState)
    requires NoAssign(e)
    ensures CompileExpr(e, line, st).ok <==> Arithmetic(e) && FreeVars(e) <= st.vars.Keys
    decreases e
  {
    match e
    case Binary(op, x, y) =>
      if op in OpMap {
        var a := CompileExpr(x, line, st);
        CompilesIff(x, line, st);
        if a.ok {
          Vars(x, line, st);
          CompilesIff(y, line, a.st);
        }
      }
    case Paren(inner) =>
      CompilesIff(inner, line, st);
    case _ =>
  }

  /**
   * An assignment nested in the right side of another compiles, and the
   * outer one then copies from %tmp-1, the index the inner one returns,
   * which none of the lines written defines.
   */
  lemma NestedAssignment(x: string, y: Expr, line: int, st: CState)
    requires IsAssign(y) && CompileExpr(Binary(LSS, Ident(x), y), line, st).ok
    ensures var r := CompileExpr(Binary(LSS, Ident(x), y), line, st);
      r.st.ll[|r.st.ll| - 1] == Add0(NamedReg(x), RegOp(TmpReg(-1)))
      && (st.varNo >= 0 ==> forall l :: l in r.st.ll[|st.ll|..] ==> DefinedTemp(l) != Some(-1))
  {
    Numbering(y, line, st);
    Numbering(Binary(LSS, Ident(x), y), line, st);
    var r := CompileExpr(Binary(LSS, Ident(x), y), line, st);
    LastTempAbove(r.st.ll[|st.ll|..], st.varNo);
  }

  /** `a = (b = 1)`, the first line of a file: %a is copied from %tmp-1. */
  lemma NestedAssignmentExample()
    ensures var r := CompileExpr(Binary(LSS, Ident("a"), Paren(Binary(LSS, Ident("b"), BasicLit("1")))), 1, CState(0, map[], false, [], []));
      r.ok && r.st.vars == map["b" := 1, "a" := 1]
      && r.st.ll == [Add0(TmpReg(1), LitOp("1")), Add0(NamedReg("b"), RegOp(TmpReg(1))), Add0(NamedReg("a"), RegOp(TmpReg(-1)))]
      && Render(r.st.ll[2]) == "  %a = add i64 %tmp-1, 0\n"
  {
    InnerAssignmentExample();
    CopyFromMinusOneText();
  }

  lemma CopyFromMinusOneText()
    ensures Render(Add0(NamedReg("a"), RegOp(TmpReg(-1)))) == "  %a = add i64 %tmp-1, 0\n"
  {
    assert IntToString(-1) == "-1";
  }

  lemma InnerAssignmentExample()
    ensures CompileExpr(Paren(Binary(LSS, Ident("b"), BasicLit("1"))), 1, CState(0, map[], false, [], []))
      == Outcome(-1, true, CState(1, map["b" := 1], false, [Add0(TmpReg(1), LitOp("1")), Add0(NamedReg("b"), RegOp(TmpReg(1)))], []))
  {
    var st0 := CState(0, map[], false, [], []);
    assert CompileExpr(BasicLit("1"), 1, st0) == Outcome(1, true, st0.(varNo := 1, ll := [Add0(TmpReg(1), LitOp("1"))]));
  }

  // ------------------------------------------------------------ the generated code computes the expression

  /** The machine holds each variable of env in its register %name, and nothing else named. */
  ghost predicate Holds(env: map<string, int>, m: Machine) {
    EnvOk(env)
    && (forall x :: x in env <==> NamedReg(x) in m.regs)
    && (forall x :: x in env ==> m.regs[NamedReg(x)] == env[x])
  }

  predicate Above(r: Reg, k: int) {
    r.TmpReg? && r.n > k
  }

  /** m1 differs from m at most in temporaries numbered above k, and prints nothing more. */
  predicate SameBelow(m: Machine, m1: Machine, k: int) {
    m1.out == m.out
    && (forall r :: r in m.regs && !Above(r, k) ==> r in m1.regs && m1.regs[r] == m.regs[r])
    && (forall r :: r in m1.regs && !Above(r, k) ==> r in m.regs)
  }

  lemma SameBelowTrans(m0: Machine, m1: Machine, m2: Machine, j: int, k: int)
    requires j <= k && SameBelow(m0, m1, j) && SameBelow(m1, m2, k)
    ensures SameBelow(m0, m2, j)
  {
  }

  lemma HoldsKept(env: map<string, int>, m: Machine, m1: Machine, k: int)
    requires Holds(env, m) && SameBelow(m, m1, k)
    ensures Holds(env, m1)
  {
    forall x | NamedReg(x) in m1.regs
      ensures x in env
    {
      assert !Above(NamedReg(x), k);
    }
    forall x | x in env
      ensures NamedReg(x) in m1.regs && m1.regs[NamedReg(x)] == env[x]
    {
      assert !Above(NamedReg(x), k);
    }
  }

  lemma {:induction false} RunAppend(p: seq<LlLine>, q: seq<LlLine>, m: Machine)
    ensures Run(p + q, m) == match Run(p, m) case Some(m1) => Run(q, m1) case None => None
    decreases |p|
  {
    if |p| == 0 {
      assert p + q == q;
    } else {
      assert (p + q)[0] == p[0];
      assert (p + q)[1..] == p[1..] + q;
      match ExecLine(p[0], m)
      case Some(m1) =>
        RunAppend(p[1..], q, m1);
      case None =>
    }
  }

  lemma RunOne(l: LlLine, m: Machine)
    ensures Run([l], m) == ExecLine(l, m)
  {
    assert [l][1..] == [];
  }

  /** A line that sets temporary n > k from a value changes nothing at or below k. */
  lemma SetTempAbove(m: Machine, n: int, v: int, k: int)
    requires n > k
    ensures SameBelow(m, m.(regs := m.regs[TmpReg(n) := v]), k)
  {
  }

  /** opMap is right: each operator and its LLVM instruction compute the same i64 value. */
  lemma OpMapAgrees(op: Token, a: int, b: int)
    requires op in OpMap
    ensures ArithValue(OpMap[op], a, b) == Apply(op, a, b)
  {
  }

  /**
   * What the lines written for an expression do when run: they are defined
   * exactly when the expression has a value, leave that value in %tmp<idx>,
   * and touch no register but temporaries above k.
   */
  ghost predicate Computes(e: Expr, env: map<string, int>, m: Machine, code: seq<LlLine>, idx: int, k: int) {
    var out := Run(code, m);
    (out.Some? <==> Eval(e, env).Some?)
    && (out.Some? ==> TmpReg(idx) in out.value.regs && out.value.regs[TmpReg(idx)] == Eval(e, env).value
                      && SameBelow(m, out.value, k))
  }

  /**
   * The code processExpr writes for an expression without assignment
   * computes the expression's i64 value, on every machine that holds the
   * variables' values in their registers.
   */
  lemma {:induction false} CompileExprCorrect(e: Expr, line: int, st: CState, env: map<string, int>, m: Machine)
    requires NoAssign(e) && CompileExpr(e, line, st).ok && Holds(env, m)
    ensures var r := CompileExpr(e, line, st); Computes(e, env, m, r.st.ll[|st.ll|..], r.idx, st.varNo)
    decreases e, 1
  {
    match e
    case Binary(op, x, y) =>
      var a := CompileExpr(x, line, st);
      ArithShape(op, x, y, line, st);
      CorrectArith(op, x, y, line, st, env, m, a, CompileExpr(y, line, a.st));
    case Ident(_) =>
      CorrectLeaf(e, line, st, env, m);
    case BasicLit(_) =>
      CorrectLeaf(e, line, st, env, m);
    case Paren(inner) =>
      CompileExprCorrect(inner, line, st, env, m);
    case CallExpr(_, _) =>
      assert false;
    case OtherExpr =>
      assert false;
  }

  lemma CorrectLeaf(e: Expr, line: int, st: CState, env: map<string, int>, m: Machine)
    requires (e.Ident? || e.BasicLit?) && CompileExpr(e, line, st).ok && Holds(env, m)
    ensures var r := CompileExpr(e, line, st); Computes(e, env, m, r.st.ll[|st.ll|..], r.idx, st.varNo)
  {
    var r := CompileExpr(e, line, st);
    var n := st.varNo + 1;
    var src := if e.Ident? then RegOp(NamedReg(e.name)) else LitOp(e.value);
    var l := Add0(TmpReg(n), src);
    assert r.st.ll[|st.ll|..] == [l];
    RunOne(l, m);
    assert OperandValue(src, m) == Eval(e, env);
    if OperandValue(src, m).Some? {
      var v := OperandValue(src, m).value;
      WrapInRange(Int64, v + 0);
      SetTempAbove(m, n, v, st.varNo);
    }
  }

  /** The lines of an arithmetic node compute it, given the outcomes of its operands. */
  lemma {:induction false} CorrectArith(op: Token, x: Expr, y: Expr, line: int, st: CState, env: map<string, int>, m: Machine,
                                        a: Outcome, b: Outcome)
    requires op in OpMap && op != LSS && NoAssign(x) && NoAssign(y) && Holds(env, m)
    requires a == CompileExpr(x, line, st) && b == CompileExpr(y, line, a.st) && a.ok && b.ok
    requires a.idx == a.st.varNo && b.idx == b.st.varNo && st.varNo <= a.st.varNo <= b.st.varNo
    ensures Computes(Binary(op, x, y), env, m,
                     a.st.ll[|st.ll|..] + (b.st.ll[|a.st.ll|..] + [Arith(b.st.varNo + 1, OpMap[op], a.idx, b.idx)]),
                     b.st.varNo + 1, st.varNo)
    decreases Binary(op, x, y), 0
  {
    var codeA, codeB := a.st.ll[|st.ll|..], b.st.ll[|a.st.ll|..];
    var l := Arith(b.st.varNo + 1, OpMap[op], a.idx, b.idx);
    RunAppend(codeA, codeB + [l], m);
    CompileExprCorrect(x, line, st, env, m);
    var outA := Run(codeA, m);
    if outA.Some? {
      var m1 := outA.value;
      HoldsKept(env, m, m1, st.varNo);
      CompileExprCorrect(y, line, a.st, env, m1);
      CorrectArithTail(op, x, y, env, m, m1, codeB, a.idx, b.idx, b.st.varNo + 1, st.varNo, a.st.varNo);
    }
  }

  /** The lines of an arithmetic node: the left operand's, the right operand's, then one Arith line. */
  lemma ArithShape(op: Token, x: Expr, y: Expr, line: int, st: CState)
    requires op != LSS && NoAssign(x) && NoAssign(y) && CompileExpr(Binary(op, x, y), line, st).ok
    ensures var a := CompileExpr(x, line, st); var b := CompileExpr(y, line, a.st);
      var r := CompileExpr(Binary(op, x, y), line, st);
      op in OpMap && a.ok && b.ok && a.idx == a.st.varNo && b.idx == b.st.varNo
      && st.varNo <= a.st.varNo <= b.st.varNo && r.idx == b.st.varNo + 1
      && |st.ll| <= |a.st.ll| <= |b.st.ll|
      && r.st.ll[|st.ll|..] == a.st.ll[|st.ll|..] + (b.st.ll[|a.st.ll|..] + [Arith(b.st.varNo + 1, OpMap[op], a.idx, b.idx)])
  {
    var a := CompileExpr(x, line, st);
    var b := CompileExpr(y, line, a.st);
    ArithOutcome(op, x, y, line, st);
    Numbering(x, line, st);
    Numbering(y, line, a.st);
    NoAssignIsNotAssign(x);
    NoAssignIsNotAssign(y);
    SliceSplit(st.ll, a.st.ll, b.st.ll);
  }

  /** An arithmetic node that compiles: both operands compile, and one Arith line follows them. */
  lemma ArithOutcome(op: Token, x: Expr, y: Expr, line: int, st: CState)
    requires op != LSS && CompileExpr(Binary(op, x, y), line, st).ok
    ensures var a := CompileExpr(x, line, st); var b := CompileExpr(y, line, a.st);
      var r := CompileExpr(Binary(op, x, y), line, st);
      op in OpMap && a.ok && b.ok && r.idx == b.st.varNo + 1
      && r.st.ll == b.st.ll + [Arith(b.st.varNo + 1, OpMap[op], a.idx, b.idx)]
  {
  }

  /** Running the right operand's lines and the Arith line after the left operand's have run. */
  lemma CorrectArithTail(op: Token, x: Expr, y: Expr, env: map<string, int>, m: Machine, m1: Machine,
                         codeB: seq<LlLine>, ia: int, ib: int, n: int, k0: int, k1: int)
    requires op in OpMap && op != LSS && k0 <= ia == k1 < n && ib < n
    requires Eval(x, env).Some? && TmpReg(ia) in m1.regs && m1.regs[TmpReg(ia)] == Eval(x, env).value && SameBelow(m, m1, k0)
    requires Computes(y, env, m1, codeB, ib, k1)
    ensures var out := Run(codeB + [Arith(n, OpMap[op], ia, ib)], m1);
      (out.Some? <==> Eval(Binary(op, x, y), env).Some?)
      && (out.Some? ==> TmpReg(n) in out.value.regs && out.value.regs[TmpReg(n)] == Eval(Binary(op, x, y), env).value
                        && SameBelow(m, out.value, k0))
  {
    var l := Arith(n, OpMap[op], ia, ib);
    RunAppend(codeB, [l], m1);
    var outB := Run(codeB, m1);
    if outB.Some? {
      var m2 := outB.value;
      assert !Above(TmpReg(ia), k1);
      CorrectArithLine(op, Eval(x, env).value, Eval(y, env).value, m, m1, m2, ia, ib, n, k0, k1);
      RunOne(l, m2);
    }
  }

  /** The last line of an arithmetic node applies the operator to the operands' temporaries. */
  lemma CorrectArithLine(op: Token, vx: int, vy: int, m: Machine, m1: Machine, m2: Machine,
                         ia: int, ib: int, n: int, k0: int, k1: int)
    requires op in OpMap && k0 <= k1 < n
    requires TmpReg(ia) in m2.regs && m2.regs[TmpReg(ia)] == vx
    requires TmpReg(ib) in m2.regs && m2.regs[TmpReg(ib)] == vy
    requires SameBelow(m, m1, k0) && SameBelow(m1, m2, k1)
    ensures var out := ExecLine(Arith(n, OpMap[op], ia, ib), m2);
      (out.Some? <==> Apply(op, vx, vy).Some?)
      && (out.Some? ==> TmpReg(n) in out.value.regs && out.value.regs[TmpReg(n)] == Apply(op, vx, vy).value
                        && SameBelow(m, out.value, k0))
  {
    OpMapAgrees(op, vx, vy);
    if Apply(op, vx, vy).Some? {
      SetTempAbove(m2, n, Apply(op, vx, vy).value, k1);
      SameBelowTrans(m, m1, m2, k0, k1);
      SameBelowTrans(m, m2, m2.(regs := m2.regs[TmpReg(n) := Apply(op, vx, vy).value]), k0, k1);
    }
  }

  /**
   * An assignment `name = y` whose right side has no assignment: when run,
   * its lines set %name to y's value and keep every other variable.
   */
  lemma AssignCorrect(x: string, y: Expr, line: int, st: CState, env: map<string, int>, m: Machine)
    requires NoAssign(y) && CompileExpr(Binary(LSS, Ident(x), y), line, st).ok && Holds(env, m)
    ensures var r := CompileExpr(Binary(LSS, Ident(x), y), line, st); var out := Run(r.st.ll[|st.ll|..], m);
      (out.Some? <==> Eval(y, env).Some?)
      && (out.Some? ==> Holds(env[x := Eval(y, env).value], out.value) && out.value.out == m.out)
  {
    var ry := CompileExpr(y, line, st);
    var r := CompileExpr(Binary(LSS, Ident(x), y), line, st);
    var l := Add0(NamedReg(x), RegOp(TmpReg(ry.idx)));
    assert ry.ok && r.st.ll == ry.st.ll + [l];
    assert r.st.ll[|st.ll|..] == ry.st.ll[|st.ll|..] + [l];
    CompileExprCorrect(y, line, st, env, m);
    RunAppend(ry.st.ll[|st.ll|..], [l], m);
    var outY := Run(ry.st.ll[|st.ll|..], m);
    if outY.Some? {
      var m1 := outY.value;
      var v := Eval(y, env).value;
      HoldsKept(env, m, m1, st.varNo);
      RunOne(l, m1);
      WrapInRange(Int64, v + 0);
      HoldsSet(env, m1, x, v);
    }
  }

  lemma HoldsSet(env: map<string, int>, m: Machine, x: string, v: int)
    requires Holds(env, m) && InRange(Int64, v)
    ensures Holds(env[x := v], m.(regs := m.regs[NamedReg(x) := v]))
  {
    var m1 := m.(regs := m.regs[NamedReg(x) := v]);
    forall z
      ensures z in env[x := v] <==> NamedReg(z) in m1.regs
    {
      assert NamedReg(z) == NamedReg(x) <==> z == x;
    }
  }

  /**
   * A print statement that compiles prints, when run, the value of its
   * literal or variable, and nothing happens when that has no value.
   */
  lemma PrintCorrect(args: seq<Expr>, line: int, st: CState, env: map<string, int>, m: Machine)
    requires CompilePrint(args, line, st).0 && Holds(env, m)
    ensures var r := CompilePrint(args, line, st).1; var out := Run(r.ll[|st.ll|..], m);
      (args[0].Ident? || args[0].BasicLit?)
      && (out.Some? <==> Eval(args[0], env).Some?)
      && (out.Some? ==> out.value == m.(out := m.out + [Eval(args[0], env).value]))
  {
    var r := CompilePrint(args, line, st).1;
    assert r.ll[|st.ll|..] == [r.ll[|st.ll|]];
    RunOne(r.ll[|st.ll|], m);
  }

  /**
   * processPrint does not check that a printed variable is defined, as
   * processExpr does: print of an undefined name compiles, and its line has
   * no value on a machine without that register.
   */
  lemma PrintSkipsDefinedCheck(x: string, line: int, st: CState, env: map<string, int>, m: Machine)
    requires x !in st.vars && x !in env && Holds(env, m)
    ensures !CompileExpr(Ident(x), line, st).ok
    ensures CompilePrint([Ident(x)], line, st).0
    ensures Run(CompilePrint([Ident(x)], line, st).1.ll[|st.ll|..], m).None?
  {
    PrintCorrect([Ident(x)], line, st, env, m);
  }
}
