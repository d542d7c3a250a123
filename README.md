# A verified model of the SSA interpreter, the wcc compiler and the ANTLR calculator of go-ast-book

This project models, in Dafny, the executable core of the book *go-ast-book*.
It has three parts.

- **The SSA interpreter of chapter 14.** It runs the `golang.org/x/tools/go/ssa` form of a Go program.
  - Three of its stages are modelled. `01-hello` only understands `println` of constants. `02-global-var` adds zero-initialised globals, `Store`, `UnOp` and builtin calls over one block. `05-branch` runs whole functions: blocks, `If`, `Jump`, `Phi`, `Return`, `BinOp` and calls of functions.
  - Their shared operations are modelled too: the `waops` package (`zero`, `constValue`, `unop`, `binop`, `Deref`), the `watypes` value helpers (`Load`, `Store`, `ToString`, `Equals`) and the `wabuiltin` `Print`.
- **The `wcc` compiler of chapter 16.** It translates the one-line statements `x = e` and `print(x)` to LLVM IR. Modelled: `processExpr`, `processPrint`, and the global state they share (`varNo`, `vars`, `srcError`, `lineNo`).
- **The ANTLR4 calculator of appendix B.** An `int` stack, a listener that evaluates a parse tree in its exit callbacks, and a visitor that evaluates it by recursive descent.

## How the model is built

**Values are a datatype.**
- `Values.Value` is the dynamic value an interpreter keeps for a Go `interface{}`: nil, a bool, an integer of one of the eleven integer kinds (`IntV(kind, n)` with `n` always in the kind's range), a string, a pointer to a memory cell, `unsafe.Pointer(nil)`, a function, or a builtin.
- Go's fixed-width integer arithmetic is written out in `MachineInt`:
  - wrap to the width;
  - `/` truncates toward zero;
  - `%` takes the sign of the dividend;
  - bitwise operators work on the two's-complement bits.

**Memory is a class.**
- A `*watypes.Value` is the address of a cell in `Values.Memory`, a class whose `cells` sequence the engines' `Store` instructions update in place.
- The engines are classes whose fields are the Go structs' fields: the globals table, `initOnce` (a flag), the frame's `env`, `block` and `prevBlock`, and the text written to standard output.
- Each state-changing method is proved against a pure function of the old state:
  - `BranchSemantics` holds those functions for `05-branch`;
  - `GlobalVarEngine` and `HelloEngine` hold them for `02-global-var` and `01-hello`.

**Other design choices.**
- A Go panic is an `Err(panic)` result. For `01-hello` and the calculator the contracts also state what the panic leaves behind: the text written before it, and the stack as it was. For `02-global-var` and `05-branch` they state only which panic it is (see "Left out").
- `05-branch` can loop forever. Its semantics therefore carries a fuel argument. Only the block loop `RunLoop` spends it, one unit per block entered; `Step` and `RunFunc` pass it on unchanged, so a call runs on the fuel its caller has left. The lemmas `StepFuel`, `RunInstrsFuel`, `RunLoopFuel` and `RunFuncFuel` prove that the result does not depend on the fuel once there is enough.

**wcc.**
- The compiler is a class holding the Go globals and the lines written to the `.ll` file.
- `Wcc.CompileExpr` and `Wcc.CompilePrint` are the same computation on values.
- A small interpreter of the emitted lines (`Wcc.Run`) gives the generated code a meaning. This is how the code is proved to compute the source expression's value (`Wcc.Eval`).

**The calculator.**
- The `Stack` (a class over `seq<int>`), the listener and the visitor are classes.
- Their methods are proved against `Calc.EvalOn`, a function on stacks.
- `Calc.EvalOn` is proved to compute `Calc.Value`, the value of the expression.

A literal behaviour of `wcc` that the model keeps:
- the assignment case returns the index -1 (wcc.go:161);
- so a nested assignment such as `a = (b = 1)` copies `%a` from a `%tmp-1` that no line defines.

`Wcc.NestedAssignment` and `Wcc.NestedAssignmentExample` state this behaviour.

## Model

| member | source | states |
|---|---|---|
| MachineInt.Wrap | ch14/examples/04-bi-op/waops/ops_bin_op.go:25-59 | the result of integer arithmetic lies in the kind's range and is congruent to the exact value modulo 2^width |
| MachineInt.Bits | ch14/examples/04-bi-op/waops/ops_bin_op.go:189-291 | the two's-complement bit pattern of a value: below 2^width and congruent to the value |
| MachineInt.WrapInRange | ch14/examples/04-bi-op/waops/ops_bin_op.go:25-127 | an exact result that fits the kind is returned unchanged |
| MachineInt.WrapCongruent | ch14/examples/04-bi-op/waops/ops_bin_op.go:25-127 | congruent exact values wrap to the same machine value |
| MachineInt.QuotRemLaws | ch14/examples/04-bi-op/waops/ops_bin_op.go:129-187 | Go's truncated division: x == y*q + r, abs(r) < abs(y), r has the dividend's sign, abs(y*q) <= abs(x) |
| MachineInt.RemIsSignedMod | ch14/examples/04-bi-op/waops/ops_bin_op.go:163-187 | the remainder is the magnitude remainder carrying the dividend's sign |
| MachineInt.RemInRange | ch14/examples/04-bi-op/waops/ops_bin_op.go:163-187 | the remainder of two values of a kind is a value of that kind, with no wrapping needed |
| MachineInt.ComplementIsXorMask | ch14/examples/02-global-var/waops/ops_un_op.go:59-83 | the bitwise complement ^x is x XOR all-ones of the width |
| MachineInt.ComplementInvolutive | ch14/examples/02-global-var/waops/ops_un_op.go:59-83 | ^^x == x for every value of the kind |
| MachineInt.NegateInvolutive | ch14/examples/02-global-var/waops/ops_un_op.go:26-58 | -(-x) == x for every value of the kind |
| MachineInt.NegateIsAdditiveInverse | ch14/examples/02-global-var/waops/ops_un_op.go:26-58 | x + (-x) wraps to 0 |
| MachineInt.NegateMin | ch14/examples/02-global-var/waops/ops_un_op.go:26-49 | negating the most negative signed value gives itself |
| MachineInt.AndNotViaComplement | ch14/examples/04-bi-op/waops/ops_bin_op.go:267-291 | x &^ y == x & ^y |
| MachineInt.BitwiseCommutes | ch14/examples/04-bi-op/waops/ops_bin_op.go:189-265 | &, \| and ^ are commutative |
| MachineInt.BitwiseSelf | ch14/examples/04-bi-op/waops/ops_bin_op.go:189-291 | x&x == x\|x == x, and x^x == x&^x == 0 |
| Decimal.NatToStringRoundTrip | ch14/examples/02-global-var/watypes/value.go:31-34 | reading back the decimal digits of n gives n |
| Decimal.IntToStringRoundTrip | ch14/examples/02-global-var/watypes/value.go:31-34 | the `%v` text of an integer parses back to the integer |
| Decimal.IntToStringInjective | ch14/examples/02-global-var/watypes/value.go:31-34 | distinct integers print differently |
| Decimal.Atoi | appendix/b-antlr4/listener.go:35 | `strconv.Atoi` with the error ignored: the result is always an int64; well-formed text gives its value clamped to the int64 range; text whose leading digits overflow 64 bits gives the int64 end for its sign; any other malformed text gives 0 |
| Decimal.AtoiOverflowFirst | appendix/b-antlr4/listener.go:35 | digits that overflow 64 bits decide Atoi whatever follows them: the largest int64, or the smallest after a minus sign |
| Decimal.AtoiMalformed | appendix/b-antlr4/listener.go:35 | malformed text whose leading digits fit 64 bits gives 0 |
| Decimal.DigitRun | appendix/b-antlr4/listener.go:35 | the longest run of digits at the start of a text, where ParseUint meets its first non-digit |
| Decimal.AtoiRoundTrip | appendix/b-antlr4/visitor.go:25 | Atoi of an int64's decimal text is that int64 |
| GoTypes.Default | ch14/examples/02-global-var/waops/ops_zero.go:24-26 | `types.Default` keeps a typed kind and maps every untyped kind except nil to a typed kind |
| GoTypes.Underlying | ch14/examples/04-bi-op/waops/utils.go:11 | the underlying type is never named, and is the type itself for an unnamed type |
| GoTypes.Deref | ch14/examples/04-bi-op/waops/utils.go:10-15 | a type whose underlying type is a pointer gives the element type; any other type gives itself |
| GoTypes.DerefOneLevel | ch14/examples/04-bi-op/waops/utils.go:10-15 | Deref removes exactly one pointer level |
| GoTypes.DerefThroughName | ch14/examples/04-bi-op/waops/utils.go:10-15 | a named pointer type dereferences through its underlying type; Deref of a non-pointer is idempotent |
| Values.ToString | ch14/examples/05-branch/watypes/value.go:25-49 | an integer's text parses back to it, a string prints itself, nil and a nil pointer print `<nil>`, a pointer, function or builtin prints a `0x` address |
| Values.Equals | ch14/examples/05-branch/watypes/value.go:51-92 | when it returns, it answers x == y |
| Values.EqualsDefinedness | ch14/examples/05-branch/watypes/value.go:51-92 | Equals returns exactly for a comparable x and a y of the same dynamic type; for an uncomparable x it panics "comparing uncomparable type"; for a mismatched y the type assertion panics |
| Values.EqualsSymmetric | ch14/examples/05-branch/watypes/value.go:51-92 | where Equals(x, y) returns, Equals(y, x) returns the same answer |
| Values.LoadFrom | ch14/examples/05-branch/watypes/value.go:15-17 | loading through a nil pointer panics, and loading through any other pointer succeeds |
| Values.StoreInto | ch14/examples/05-branch/watypes/value.go:20-22 | storing through a nil pointer panics; otherwise a load at that address gives v, every other cell is unchanged, and the size is kept |
| Values.StoreKeepsCellsOk | ch14/examples/05-branch/watypes/value.go:20-22 | storing a valid value keeps memory well-formed (canonical values, pointers in bounds) |
| Values.Memory.Alloc | ch14/examples/02-global-var/run.go:47-48 | `&cell`: a fresh cell at the end of memory holding v, the old cells untouched |
| Values.Memory.Load | ch14/examples/05-branch/watypes/value.go:15-17 | the loaded value is a valid value of this memory |
| Values.Memory.Store | ch14/examples/05-branch/watypes/value.go:20-22 | the cells become StoreInto's result; a nil pointer panics and leaves memory as it was |
| OpsZero.Zero | ch14/examples/02-global-var/waops/ops_zero.go:18-71 | a result is a zero value of the (defaulted) type, and every pointer type has one (a nil `*Value`) |
| OpsZero.ZeroUnique | ch14/examples/02-global-var/waops/ops_zero.go:18-71 | the zero value is the only zero value of its type |
| OpsZero.ZeroOfUntyped | ch14/examples/02-global-var/waops/ops_zero.go:21-26 | an untyped kind takes its default's zero; untyped nil panics |
| OpsZero.ZeroDefinedFor | ch14/examples/02-global-var/waops/ops_zero.go:18-71 | zero returns exactly for pointers and for the bool, integer, string and unsafe.Pointer kinds; named and composite types panic |
| OpsConstValue.Int64Of | ch14/examples/02-global-var/waops/ops_const_value.go:33-43 | `constant.Int64Val` on an integer constant gives an int64 |
| OpsConstValue.Uint64Of | ch14/examples/02-global-var/waops/ops_const_value.go:44-57 | `constant.Uint64Val` on an integer constant gives a uint64 |
| OpsConstValue.RuneString | ch14/examples/02-global-var/waops/ops_const_value.go:26-30 | `string(rune)`: one character, the code point itself when it is valid, U+FFFD otherwise |
| OpsConstValue.ConstValue | ch14/examples/02-global-var/waops/ops_const_value.go:19-70 | a nil constant is the zero of its type; any other result has the default type of the constant's underlying basic type; a string constant of string type is that string, an integer constant of string type is the text of that one rune, and a boolean type takes a bool constant's value |
| OpsConstValue.ConstIntExact | ch14/examples/02-global-var/waops/ops_const_value.go:33-57 | an integer constant that fits its kind becomes exactly that value |
| OpsConstValue.ConstIntTruncates | ch14/examples/02-global-var/waops/ops_const_value.go:33-57 | a constant within int64 (uint64 for unsigned kinds) is converted with truncation to the kind's width |
| OpsConstValue.ConstIntOverflowIsZero | ch14/examples/02-global-var/waops/ops_const_value.go:33-57 | a constant beyond 64 bits converts from Int64Val's or Uint64Val's 0 |
| OpsConstValue.UntypedConstDefault | ch14/examples/02-global-var/waops/ops_const_value.go:24-25 | an untyped constant behaves as its default type |
| OpsConstValue.NamedConst | ch14/examples/02-global-var/waops/ops_const_value.go:24 | a constant of a named type behaves as one of its underlying type |
| OpsConstValue.RuneConstant | ch14/examples/02-global-var/waops/ops_const_value.go:26-30 | an integer constant of string type is the one-character string of that rune |
| OpsUnOp.UnOp | ch14/examples/02-global-var/waops/ops_un_op.go:18-86 | `*x` loads through a pointer; `!` needs a bool and negates it; `-` and `^` need an integer and keep its kind; any other operator panics |
| OpsUnOp.NotInvolutive | ch14/examples/02-global-var/waops/ops_un_op.go:23-24 | `!!b == b` |
| OpsUnOp.NegateAndComplementInvolutive | ch14/examples/02-global-var/waops/ops_un_op.go:26-83 | `-(-x) == x` and `^(^x) == x` for every integer kind |
| OpsUnOp.UnaryIntMeaning | ch14/examples/02-global-var/waops/ops_un_op.go:26-83 | `-x` is the wrapped additive inverse (the minimum negates to itself); `^x` is x XOR all-ones |
| OpsUnOp.LoadAfterStore | ch14/examples/02-global-var/waops/ops_un_op.go:20-21 | `*p` after a store through p reads the stored value |
| OpsUnOp.DerefFailures | ch14/examples/02-global-var/waops/ops_un_op.go:20-21 | `*nil` panics with a nil dereference, and `*` of a non-pointer panics on the type assertion |
| OpsBinOp.IntArith | ch14/examples/04-bi-op/waops/ops_bin_op.go:25-187 | integer + - * / % on one kind stay in the kind's range and panic only on a zero divisor |
| OpsBinOp.BinOp | ch14/examples/04-bi-op/waops/ops_bin_op.go:14-422 | == != and the orderings give bools; + - * / % give a value of the operands' kind (or a string for +); orderings need two integers of one kind or two strings; any other operator panics |
| OpsBinOp.EqlNeq | ch14/examples/04-bi-op/waops/ops_bin_op.go:20-23 | == answers x == y, != answers x != y, and both panic together |
| OpsBinOp.ArithmeticWraps | ch14/examples/04-bi-op/waops/ops_bin_op.go:25-127 | + - * on a kind are the exact results wrapped to the width, and equal to them when they fit |
| OpsBinOp.DivisionLaws | ch14/examples/04-bi-op/waops/ops_bin_op.go:129-187 | a zero divisor panics; otherwise b*q + r wraps back to a, abs(r) < abs(b), r has a's sign, and q is the truncated quotient when it fits |
| OpsBinOp.Uint32DivisionExample | ch14/examples/04-bi-op/waops/ops_bin_op.go:129-161 | uint32 7/2 == 3 and 7/0 panics |
| OpsBinOp.BitwiseLaws | ch14/examples/04-bi-op/waops/ops_bin_op.go:189-291 | & \| ^ commute; x&x == x\|x == x; x^x == x&^x == 0 |
| OpsBinOp.AndNotIsAndComplement | ch14/examples/04-bi-op/waops/ops_bin_op.go:267-291 | `a &^ b` equals `a & (^b)`, with ^b computed by unop |
| OpsBinOp.StringArithmetic | ch14/examples/04-bi-op/waops/ops_bin_op.go:57-58 | `+` concatenates strings; every other arithmetic operator on strings panics |
| OpsBinOp.StrLessIrreflexive | ch14/examples/04-bi-op/waops/ops_bin_op.go:321-322 | no string is less than itself |
| OpsBinOp.StrLessTrichotomy | ch14/examples/04-bi-op/waops/ops_bin_op.go:321-322 | of two strings, exactly one of equal, less and greater holds |
| OpsBinOp.StrLessTransitive | ch14/examples/04-bi-op/waops/ops_bin_op.go:321-322 | string < is transitive |
| OpsBinOp.OrderingsAgree | ch14/examples/04-bi-op/waops/ops_bin_op.go:293-419 | x > y is y < x, <= is not >, >= is not <, and exactly one of <, ==, > holds |
| OpsBinOp.MismatchPanics | ch14/examples/04-bi-op/waops/ops_bin_op.go:20-161 | operands of different dynamic types panic on the type assertion `y.(T)` |
| OpsBinOp.NonNumericOperands | ch14/examples/04-bi-op/waops/ops_bin_op.go:421 | arithmetic or ordering on a bool, nil, pointer or function panics as an invalid binary op |
| WaBuiltin.Texts | ch14/examples/02-global-var/wabuildin/print.go:17-22 | one text per argument, namely its ToString |
| WaBuiltin.Print | ch14/examples/02-global-var/wabuildin/print.go:13-29 | writes PrintText of the arguments (println if the builtin is named "println") and returns nil |
| WaBuiltin.JoinSnoc | ch14/examples/02-global-var/wabuildin/print.go:17-22 | adding one argument appends the separator and its text |
| WaBuiltin.PrintNoArgs | ch14/examples/02-global-var/wabuildin/print.go:23-25 | `println()` writes a newline and `print()` writes nothing |
| WaBuiltin.PrintlnCons | ch14/examples/02-global-var/wabuildin/print.go:17-25 | println of a, rest is a's text, a space, then println of rest |
| WaBuiltin.PrintConcat | ch14/examples/02-global-var/wabuildin/print.go:17-22 | print puts no separator: print(a ++ b) == print(a) ++ print(b) |
| WaBuiltin.TextsConcat | ch14/examples/02-global-var/wabuildin/print.go:17-22 | the texts of a ++ b are the texts of a then of b |
| WaBuiltin.JoinEmptySepConcat | ch14/examples/02-global-var/wabuildin/print.go:17-22 | joining with no separator distributes over concatenation |
| WaBuiltin.CountConcat | ch14/examples/02-global-var/wabuildin/print.go:23-25 | a character's count in s ++ t is the sum of the counts |
| WaBuiltin.JoinCount | ch14/examples/02-global-var/wabuildin/print.go:17-22 | joining parts free of a character, with a separator free of it, gives text free of it |
| WaBuiltin.PrintNewlines | ch14/examples/02-global-var/wabuildin/print.go:17-25 | for arguments without newlines, println writes exactly one newline, at the end, and print writes none |
| EngineCore.InstallOne | ch14/examples/05-branch/run.go:41-54 | installing one member only appends cells, and keeps memory and the table well-formed |
| EngineCore.Install | ch14/examples/05-branch/run.go:41-54 | installing the members only appends cells, and keeps memory and the table well-formed |
| EngineCore.InstallErrSticks | ch14/examples/05-branch/run.go:41-54 | once a zero panics, later members change nothing |
| EngineCore.PanicEndsInstall | ch14/examples/05-branch/run.go:43-50 | a panic at member j of package i is the result of initialising all the packages |
| EngineCore.AllMembersAppend | ch14/examples/05-branch/run.go:43-44 | the members of p ++ q are those of p, then those of q |
| EngineCore.InstallSucceeds | ch14/examples/05-branch/run.go:41-54 | initialisation succeeds exactly when every global's dereferenced type has a zero value |
| EngineCore.InstallTable | ch14/examples/05-branch/run.go:36-54 | the table gains exactly the globals' names, and other entries keep their cells |
| EngineCore.InstallCells | ch14/examples/05-branch/run.go:41-54 | with distinct names, each global gets a fresh cell holding Zero(Deref(type)), in member order |
| EngineCore.Globals.GetGlobal | ch14/examples/05-branch/run.go:30-33 | found exactly when the name is in the table, and then its cell |
| EngineCore.Globals.SetGlobal | ch14/examples/05-branch/run.go:36-38 | the name now maps to the cell and every other name is unchanged |
| EngineCore.Globals.InitMember | ch14/examples/05-branch/run.go:45-49 | memory and the table become InstallOne's result |
| EngineCore.Globals.InitGlobals | ch14/examples/05-branch/run.go:41-54 | the first call makes memory and the table Install's result over all packages; later calls do nothing (sync.Once) |
| EngineCore.GetValue | ch14/examples/05-branch/run.go:78-95 | a known global gives a pointer to its cell, a constant its ConstValue, nil gives nil, and anything else is looked up in env or panics |
| EngineCore.GetValueProperties | ch14/examples/05-branch/run.go:78-95 | the value is valid for the memory; only registers read env; registers do not read the globals |
| EngineCore.GetValues | ch14/examples/05-branch/run.go:178-188 | all arguments are evaluated in order, or the panic of some argument results |
| EngineCore.GetValuesErrSticks | ch14/examples/05-branch/run.go:178-188 | the first argument that panics determines the panic |
| EngineCore.GetValuesOk | ch14/examples/05-branch/run.go:178-188 | every evaluated argument is valid for the memory |
| EngineCore.PrepareArgs | ch14/examples/05-branch/run.go:182-186 | the loop computes GetValues |
| EngineCore.CallBuiltin | ch14/examples/05-branch/run.go:190-197 | print and println return nil and write PrintText; any other builtin panics |
| EngineCore.RunBuiltin | ch14/examples/05-branch/run.go:190-197 | computes CallBuiltin |
| BranchSemantics.PhiEdge | ch14/examples/05-branch/run.go:162-168 | the first predecessor that equals the previous block, or none |
| BranchSemantics.Bind | ch14/examples/05-branch/run.go:103-108 | the frame's env binds exactly the parameters |
| BranchSemantics.BindValues | ch14/examples/05-branch/run.go:103-108 | parameter i is bound to argument i (unless a later parameter repeats it) |
| BranchSemantics.BindParams | ch14/examples/05-branch/run.go:103-108 | binding succeeds exactly when there are at least as many arguments as parameters |
| BranchSemantics.BindOk | ch14/examples/05-branch/run.go:103-108 | bound arguments keep the env valid |
| BranchSemantics.Step | ch14/examples/05-branch/run.go:120-176 | an instruction only updates cells in place and appends output, and keeps the frame valid; what each kind of instruction does is stated by the `Step…` lemmas below |
| BranchSemantics.RunInstrs | ch14/examples/05-branch/run.go:120-176 | running a block only updates cells in place and appends output; `RunInstrsStep` and `RunInstrsOffEnd` state the order in which it runs instructions |
| BranchSemantics.RunLoop | ch14/examples/05-branch/run.go:110-114 | the block loop only updates cells in place and returns a valid result; `RunLoopNoBlock` and `RunLoopUnfold` state when it stops and how it goes on |
| BranchSemantics.RunFunc | ch14/examples/05-branch/run.go:97-118 | a call only updates cells in place and appends output, and returns a valid value; `RunFuncEntry`, `RunFuncBuiltin` and `RunFuncCannotStart` state each kind of callee |
| BranchSemantics.StepStore | ch14/examples/05-branch/run.go:123-124 | a non-pointer address fails the type assertion, a nil pointer panics, otherwise exactly the addressed cell takes the stored value and the frame is unchanged |
| BranchSemantics.StepUnOp | ch14/examples/05-branch/run.go:126-127 | the register is bound to waops.UnOp of the operand, or the instruction panics as that does |
| BranchSemantics.StepBinOp | ch14/examples/05-branch/run.go:129-130 | the register is bound to waops.BinOp of the operands, or the instruction panics as that does |
| BranchSemantics.StepCall | ch14/examples/05-branch/run.go:132-134 | a function call binds its register to the callee's result on the evaluated arguments and continues with the callee's memory and output |
| BranchSemantics.StepMethodCall | ch14/examples/05-branch/run.go:178-182 | a method call panics whatever its arguments, so none of them is evaluated |
| BranchSemantics.StepReturn | ch14/examples/05-branch/run.go:136-145 | Return leaves the block with no block to go to: no result keeps the result, one result sets it, more panic |
| BranchSemantics.StepIf | ch14/examples/05-branch/run.go:147-155 | a true condition goes to Succs[0], a false one to Succs[1], recording the block left as the previous one; a missing successor panics |
| BranchSemantics.StepIfNotBool | ch14/examples/05-branch/run.go:148 | a condition that is not a boolean fails the type assertion |
| BranchSemantics.StepJump | ch14/examples/05-branch/run.go:157-160 | Jump goes to Succs[0], recording the block left as the previous one |
| BranchSemantics.StepPhi | ch14/examples/05-branch/run.go:162-168 | Phi binds its register to the edge of the first predecessor equal to the previous block |
| BranchSemantics.StepPhiNoEdge | ch14/examples/05-branch/run.go:162-168 | with no predecessor equal to the previous block, Phi leaves the frame unchanged |
| BranchSemantics.StepOther | ch14/examples/05-branch/run.go:170-171 | any other instruction panics |
| BranchSemantics.RunInstrsStep | ch14/examples/05-branch/run.go:121-122 | instruction i runs first; a panic ends the block, an instruction that leaves the block ends it with nothing after it run, any other is followed by instruction i + 1 |
| BranchSemantics.RunInstrsOffEnd | ch14/examples/05-branch/run.go:175 | running off the end of the block leaves no block to go to |
| BranchSemantics.RunLoopNoBlock | ch14/examples/05-branch/run.go:110-114 | with no block left the loop returns the frame's result |
| BranchSemantics.RunFuncEntry | ch14/examples/05-branch/run.go:102-111 | a function starts at Blocks[0] with its parameters bound to the arguments, a nil result and no previous block |
| BranchSemantics.RunFuncBuiltin | ch14/examples/05-branch/run.go:98-100 | a builtin returns callBuiltin's value and appends its text to the output |
| BranchSemantics.RunFuncCannotStart | ch14/examples/05-branch/run.go:102-117 | an unknown callee panics, and so does a function with no blocks or with more parameters than arguments |
| BranchSemantics.StepFuel | ch14/examples/05-branch/run.go:120-176 | an instruction that finishes with some fuel finishes identically with more |
| BranchSemantics.RunInstrsFuel | ch14/examples/05-branch/run.go:120-176 | the same for a block |
| BranchSemantics.RunLoopFuel | ch14/examples/05-branch/run.go:110-112 | the same for the block loop |
| BranchSemantics.RunFuncFuel | ch14/examples/05-branch/run.go:97-118 | the same for a call |
| BranchSemantics.RunLoopUnfold | ch14/examples/05-branch/run.go:110-112 | one turn of the loop runs the current block and continues from the frame it leaves |
| BranchEngine.Frame.constructor | ch14/examples/05-branch/run.go:63-75 | a fresh frame: empty env, nil result, no block |
| BranchEngine.Engine.constructor | ch14/examples/05-branch/run.go:20-27 | an engine with empty globals, no memory and no output |
| BranchEngine.Engine.InitGlobals | ch14/examples/05-branch/run.go:41-54 | as Globals.InitGlobals over the program's packages |
| BranchEngine.Engine.CallBuiltin | ch14/examples/05-branch/run.go:190-197 | writes and returns what CallBuiltin gives |
| BranchEngine.Engine.PrepareCall | ch14/examples/05-branch/run.go:178-188 | a method call panics; otherwise the arguments are GetValues |
| BranchEngine.Engine.RunFunc | ch14/examples/05-branch/run.go:97-118 | result, memory and output are those of BranchSemantics.RunFunc |
| BranchEngine.Engine.RunBlocks | ch14/examples/05-branch/run.go:110-114 | result, memory and output are those of RunLoop |
| BranchEngine.Engine.Turn | ch14/examples/05-branch/run.go:110-112 | one turn of the loop, as RunLoop's unfolding |
| BranchEngine.Engine.RunFrame | ch14/examples/05-branch/run.go:120-176 | frame, memory and output are those of RunInstrs |
| BranchEngine.Engine.Exec | ch14/examples/05-branch/run.go:121-172 | frame, memory and output are those of Step, and it reports whether the block was left |
| BranchEngine.Engine.ExecCall | ch14/examples/05-branch/run.go:132-134 | the Call case of Step |
| BranchEngine.Engine.ExecPhi | ch14/examples/05-branch/run.go:162-168 | the Phi case of Step |
| GlobalVarEngine.Call | ch14/examples/02-global-var/run.go:129-148 | only a plain call of a builtin returns, as CallBuiltin; anything else panics "Unknown call" |
| GlobalVarEngine.Exec | ch14/examples/02-global-var/run.go:100-118 | Store, UnOp and Call keep the state valid, keep the memory size and append output; every other instruction is skipped |
| GlobalVarEngine.RunBlock | ch14/examples/02-global-var/run.go:100-118 | a block keeps the state valid, the memory size and appends output |
| GlobalVarEngine.StepAgrees | ch14/examples/02-global-var/run.go:100-118 | on Store, UnOp and a plain builtin call, a 02 step is exactly the 05 step |
| GlobalVarEngine.StepDiffers | ch14/examples/02-global-var/run.go:100-139 | 02 skips Return, If, Jump, Phi and others, and panics on any call other than a plain builtin call once its arguments are evaluated |
| GlobalVarEngine.Frame.constructor | ch14/examples/02-global-var/run.go:61-66 | a fresh env |
| GlobalVarEngine.Engine.constructor | ch14/examples/02-global-var/run.go:20-27 | an engine with empty globals and no output |
| GlobalVarEngine.Engine.InitGlobals | ch14/examples/02-global-var/run.go:41-54 | as Globals.InitGlobals over the program's packages |
| GlobalVarEngine.Engine.ExecInstr | ch14/examples/02-global-var/run.go:102-115 | env, memory and output are those of Exec |
| GlobalVarEngine.Engine.RunFuncBlock | ch14/examples/02-global-var/run.go:100-118 | env, memory and output are those of RunBlock |
| GlobalVarEngine.Engine.RunFunc | ch14/examples/02-global-var/run.go:88-97 | env, memory and output are those of RunEntry; the output ends with the end banner |
| HelloEngine.ArgText | ch14/examples/01-hello/run.go:74-88 | a non-constant prints nothing; an int or untyped-int constant prints int(Int64()) in decimal; a string constant prints its value |
| HelloEngine.CallBuiltin | ch14/examples/01-hello/run.go:66-96 | println writes PrintlnText of its operands; other builtins write nothing |
| HelloEngine.DoCall | ch14/examples/01-hello/run.go:41-54 | a plain builtin call goes to callBuiltin; anything else does nothing |
| HelloEngine.RunFuncBlock | ch14/examples/01-hello/run.go:27-39 | output and outcome are BlockText |
| HelloEngine.RunFunc | ch14/examples/01-hello/run.go:13-24 | output and outcome are RunText: the banners around one run of the entry block |
| HelloEngine.LineTextErrSticks | ch14/examples/01-hello/run.go:70-89 | the first argument that panics is println's panic |
| HelloEngine.LineTextErrFrom | ch14/examples/01-hello/run.go:70-89 | a panic at one argument stays the outcome of every longer prefix |
| HelloEngine.BlockTextErrSticks | ch14/examples/01-hello/run.go:27-39 | a panic in a prefix of the block is the block's outcome |
| HelloEngine.ArgTextAgrees | ch14/examples/01-hello/run.go:74-85 | on an int or string constant, 01 prints what ToString prints for the constant's value |
| HelloEngine.LineTextAgrees | ch14/examples/01-hello/run.go:70-89 | on such constants, each prefix of println is the space-joined ToString texts |
| HelloEngine.PrintlnAgrees | ch14/examples/01-hello/run.go:66-96 | on such constants, 01's println writes what wabuiltin's println writes |
| HelloEngine.ArgTextDiffers | ch14/examples/01-hello/run.go:74-88 | where they differ: a bool constant, an untyped string constant and a non-constant print nothing in 01 |
| HelloEngine.OnlyPrintlnWrites | ch14/examples/01-hello/run.go:27-64 | a block without println calls writes nothing and does not panic |
| Wcc.Render | ch16/examples/wcc/wcc.go:156-207 | each emitted line is non-empty text ending in a newline |
| Wcc.CompileExpr | ch16/examples/wcc/wcc.go:136-218 | processExpr only appends lines and never decreases varNo |
| Wcc.CompilePrint | ch16/examples/wcc/wcc.go:222-244 | print of one literal or identifier appends exactly one printf line; otherwise the state gets srcError and one message (arity or operand) and no line |
| Wcc.Compiler.constructor | ch16/examples/wcc/wcc.go:19-22 | lineNo = 0, varNo = 0, empty vars, no error |
| Wcc.Compiler.Report | ch16/examples/wcc/wcc.go:142-150 | sets srcError and records one message for the current line |
| Wcc.Compiler.ProcessExpr | ch16/examples/wcc/wcc.go:136-218 | returns and leaves exactly what CompileExpr computes from the old globals |
| Wcc.Compiler.ProcessPrint | ch16/examples/wcc/wcc.go:222-244 | returns and leaves exactly what CompilePrint computes |
| Wcc.Numbering | ch16/examples/wcc/wcc.go:136-218 | the temporaries are %tmp<varNo+1> up to the final varNo, each defined once and in order, even after an error; a compiled expression uses one per leaf and operator and returns the last (-1 for an assignment) |
| Wcc.Errors | ch16/examples/wcc/wcc.go:136-218 | a failed expression sets srcError and prints exactly one message, for this line; a successful one prints nothing |
| Wcc.Vars | ch16/examples/wcc/wcc.go:148-160 | defined variables stay defined with their lines; a new one is defined at this line, even when its right-hand side failed; an expression without assignment defines nothing |
| Wcc.CompilesIff | ch16/examples/wcc/wcc.go:136-218 | an expression without assignment compiles exactly when it uses only + - * / and parentheses, and all its variables are defined |
| Wcc.LitValue | ch16/examples/wcc/wcc.go:204-209 | a literal's i64 value is in the 64-bit range |
| Wcc.Apply | ch16/examples/wcc/wcc.go:174-179 | + - * / of two i64 values is an i64 value |
| Wcc.Eval | ch16/examples/wcc/wcc.go:136-218 | the value of an expression over i64 variables is an i64 |
| Wcc.OpMapAgrees | ch16/examples/wcc/wcc.go:174-179 | the LLVM opcode opMap gives computes the source operator |
| Wcc.CompileExprCorrect | ch16/examples/wcc/wcc.go:136-218 | the code for an expression without assignment leaves its value in the returned temporary exactly when the expression has a value; registers below the start do not change |
| Wcc.AssignCorrect | ch16/examples/wcc/wcc.go:140-161 | `x = e` runs exactly when e has a value, and then leaves %x holding it and the other variables as they were |
| Wcc.PrintCorrect | ch16/examples/wcc/wcc.go:228-237 | the printf line prints the value of the literal or variable exactly when it has one |
| Wcc.PrintSkipsDefinedCheck | ch16/examples/wcc/wcc.go:233-237 | print of an undefined variable compiles without error, although using it in an expression fails, and the emitted line has no value |
| Wcc.NestedAssignment | ch16/examples/wcc/wcc.go:154-161 | in `x = (y = e)` the copy into %x reads %tmp-1, which none of the emitted lines defines |
| Wcc.NestedAssignmentExample | ch16/examples/wcc/wcc.go:154-161 | `a = (b = 1)` on line 1 emits `%a = add i64 %tmp-1, 0` and defines both a and b |
| Wcc.InnerAssignmentExample | ch16/examples/wcc/wcc.go:154-161 | `(b = 1)` compiles to two lines, defines b, and returns -1 |
| Wcc.CopyFromMinusOneText | ch16/examples/wcc/wcc.go:156 | the text of the copy from temporary -1 is `  %a = add i64 %tmp-1, 0` |
| Calc.PopOf | appendix/b-antlr4/stack.go:10-17 | pop of an empty stack panics; otherwise it returns the top and the stack without it |
| Calc.Stack.constructor | appendix/b-antlr4/stack.go:3-5 | an empty stack |
| Calc.Stack.Push | appendix/b-antlr4/stack.go:7-9 | appends i |
| Calc.Stack.Pop | appendix/b-antlr4/stack.go:10-17 | result and new stack are PopOf's |
| Calc.PushPop | appendix/b-antlr4/stack.go:7-17 | pop after push returns the pushed value and restores the stack |
| Calc.PopIsLifo | appendix/b-antlr4/stack.go:7-17 | pop returns the last value pushed and leaves the others in order |
| Calc.Combine | appendix/b-antlr4/listener.go:14-32 | only DIV by zero panics; a value is an int64; an operator the switch lacks pushes nothing |
| Calc.CombineIsExact | appendix/b-antlr4/listener.go:14-32 | + - * are exact when the result fits in int64 |
| Calc.CombineDivision | appendix/b-antlr4/listener.go:19-20 | / is the truncated quotient, except MinInt64 / -1, which gives MinInt64 |
| Calc.DivTruncates | appendix/b-antlr4/listener.go:19-20 | -7/2 == 7/-2 == -3 |
| Calc.ReduceOperands | appendix/b-antlr4/listener.go:15 | the top value is the right operand and the one below it the left; fewer than two values panics |
| Calc.ReduceDepth | appendix/b-antlr4/listener.go:14-32 | a known operator replaces the top two values by one; an unknown operator drops both; the values below are untouched |
| Calc.Value | appendix/b-antlr4/visitor.go:24-56 | the value of a tree is an int64 or the panic of a zero divisor |
| Calc.EvalOnComputesValue | appendix/b-antlr4/visitor.go:20-56 | evaluating a tree pushes exactly its value on the stack, or panics exactly when its value is a division by zero |
| Calc.UnknownOperatorDropsOperands | appendix/b-antlr4/listener.go:14-32 | a node with an operator the switch lacks leaves the stack as it was before the node |
| Calc.TwoPlusTwoTimesFive | appendix/b-antlr4/main.go:19-26 | the program's `2+2*5` leaves exactly 12 on the stack |
| Calc.Listener.ExitNumber | appendix/b-antlr4/listener.go:34-37 | pushes Atoi of the token text |
| Calc.Listener.ExitMulDiv | appendix/b-antlr4/listener.go:14-22 | the stack and outcome are ReduceOf for * and / |
| Calc.Listener.ExitAddSub | appendix/b-antlr4/listener.go:24-32 | the stack and outcome are ReduceOf for + and - |
| Calc.Listener.Walk | appendix/b-antlr4/main.go:24 | the walker's post-order exits compute EvalOn on the stack |
| Calc.Listener.WalkStart | appendix/b-antlr4/main.go:24 | walking the start rule is EvalOn of its expression |
| Calc.Visitor.VisitRule | appendix/b-antlr4/visitor.go:15-18 | `Accept` dispatch: EvalOn of the node |
| Calc.Visitor.VisitStart | appendix/b-antlr4/visitor.go:20-22 | EvalOn of the start rule's expression |
| Calc.Visitor.VisitNumber | appendix/b-antlr4/visitor.go:24-28 | pushes Atoi of the NUMBER token's text |
| Calc.Visitor.VisitMulDiv | appendix/b-antlr4/visitor.go:30-42 | EvalOn of the node: both children, then the reduction |
| Calc.Visitor.VisitAddSub | appendix/b-antlr4/visitor.go:44-56 | EvalOn of the node: both children, then the reduction |
| Calc.Visitor.PopMulDiv | appendix/b-antlr4/visitor.go:34-40 | the stack and outcome are ReduceOf for * and / |
| Calc.Visitor.PopAddSub | appendix/b-antlr4/visitor.go:48-54 | the stack and outcome are ReduceOf for + and - |

## Left out

- Floating-point and complex values: the `float32`, `float64`, `complex64` and `complex128` cases of zero, constValue, unop and binop, and the matching cases of writeValue and Equals. Those operations return `Err(Unmodelled)`, because Dafny has no IEEE arithmetic to model them faithfully.
- `fmt`'s `%p` address is replaced by an abstract `0x`-prefixed hexadecimal text (`Values.AddressText`), because real addresses depend on the Go runtime. A pointer uses its cell number. Every function and builtin prints the same address, `0x0`.
- Panic messages: each panic is a constructor of `Results.Panic`, not the formatted string.
- Standard output is the string the engine accumulates; `os.Stdout.Write` and its errors are not modelled. The `fmt.Println` banners of runFunc are modelled as text, the `println("ssa.Store")` debug lines of the 02 runFuncBlock (which go to standard error) are not.
- Values.StrV: a Go string is a sequence of bytes, but the model's string is a `seq<char>` of code points, so the byte length and the bytes of text that is not valid UTF-8 are not modelled.
- OpsBinOp.StrLess: compares code point by code point. This agrees with Go's byte-wise string order only when both strings are valid UTF-8.
- Values.ToString: prints the characters of a string, not its bytes; invalid UTF-8 is not represented.
- EngineCore.AllMembers: `Prog.AllPackages()` and `pkg.Members` are Go maps, which range in an unspecified order. The model fixes one order, the order of `Ssa.Program.packages` and of each `Ssa.Package.members`. That order decides which global's zero value panics first and which cell number each global receives.
- BranchSemantics.Step, BranchSemantics.RunInstrs, BranchSemantics.RunLoop and BranchSemantics.RunFunc carry the world only on success. After a panic in `05-branch`, neither the output already written nor the global cells are specified; `BranchEngine.Engine.RunFunc` and the other methods promise only the panic. For example, a function that prints and then calls a function that panics has already written its text in Go, and no contract says so.
- GlobalVarEngine.Engine.ExecInstr and GlobalVarEngine.Engine.RunFuncBlock: the same holds in `02-global-var`. After a panic only the panic is stated, not the cells or the output left behind. The one exception is `GlobalVarEngine.Engine.RunFunc`: its output still ends with the deferred end banner.
- Decimal.Atoi: models the strconv.Atoi outcomes reachable from any text, including ParseUint's early return on overflow, but not the returned error value, which the calculator ignores. Its NUMBER tokens are all digits anyway.
- `sync.Once` is a boolean flag; concurrent initialisation is not modelled.
- `ssa.Value` keys of a frame's env are register numbers; `key.RelString(nil)` is the global's name. The golang.org/x/tools/go/ssa builder itself, the loading of packages and each example's `main.go` are not part of this model; programs are supplied as `Ssa.Program` values.
- BranchSemantics.RunFunc: bounded by fuel (only `RunLoop` spends it, one unit per block entered; calls pass it through unchanged); a run that needs more than the fuel given ends in `Err(OutOfFuel)`, which the Go program never reports. The fuel lemmas show the result is the same for all larger fuel.
- A callee is named, not held by pointer: `Ssa.Operand.Fn(name)` looks its body up in `Program.funcs`. A name missing from that map panics with `UnknownFunction`, the same panic as any callee that is neither a builtin nor a function. Go cannot reach this case, because it holds the `*ssa.Function` itself.
- The calculator's ANTLR lexer, parser and `ParseTreeWalker` are not modelled: the parse tree is given as a `Calc.Expr` value, the walker is the post-order `Calc.Listener.Walk`, and the `Enter` callbacks and `ExitStart`, which do nothing, are left out. The visitor run in main.go sits under `if false` and is not modelled as a program.
- The calculator's token types are fixed names (`Calc.MUL` and so on) whose numbers do not matter to the model.
- wcc: the driver (file I/O, `ReadLine`, `TrimSpace`, the `=`-to-`<` replacement of wcc.go:93, `parser.ParseExpr`, the header and footer of the .ll file and the call of clang) is not modelled. A source line is supplied already parsed as a `Wcc.Expr`, with every `=` already read as `<`.
- wcc: the text of each error message is replaced by an `ErrorKind` with the line number.
- Wcc.Run: the meaning given to the emitted LLVM IR covers only the lines wcc writes, and treats both `sdiv` by zero and `sdiv` overflow as undefined.
