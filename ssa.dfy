/**
 * The fragment of golang.org/x/tools/go/ssa that the interpreters execute:
 * operands, instructions, basic blocks (referred to by their index in the
 * function), functions and the packages' global variables.
 */
module Ssa {
  import opened GoTypes
  import opened GoToken
  import opened OpsConstValue

  /** An ssa.Value used as an operand. */
  datatype Operand =
    | Reg(id: nat)            // a parameter or the value of an instruction: a key of the frame's env
    | Global(name: string)    // an *ssa.Global, named by its package-qualified name (RelString(nil))
    | Const(c: Constant)      // an *ssa.Const
    | NilOperand              // a nil ssa.Value
    | Fn(name: string)        // an *ssa.Function, named in Program.funcs
    | Builtin(name: string)   // an *ssa.Builtin such as println

  /** An ssa.Instruction; dest is the register the instruction's value is bound to. */
  datatype Instr =
    | Store(addr: Operand, val: Operand)
    | UnOp(dest: nat, op: Token, x: Operand)
    | BinOp(dest: nat, op: Token, x: Operand, y: Operand)
    | Call(dest: nat, callee: Operand, args: seq<Operand>, isMethod: bool)
    | Return(results: seq<Operand>)
    | If(cond: Operand)
    | Jump
    | Phi(dest: nat, edges: seq<Operand>)
    | OtherInstr(desc: string) // every other instruction kind (Alloc, FieldAddr, MakeSlice, ...)

  /** An *ssa.BasicBlock: preds and succs are indices of blocks of the same function. */
  datatype Block = Block(instrs: seq<Instr>, preds: seq<nat>, succs: seq<nat>)

  /** An *ssa.Function: its parameters' registers and its blocks, Blocks[0] first. */
  datatype Function = Function(params: seq<nat>, blocks: seq<Block>)

  /** A package member: the interpreter only looks at globals. */
  datatype Member = GlobalVar(name: string, typ: Type) | OtherMember(name: string)

  datatype Package = Package(members: seq<Member>)

  /** The program: Prog.AllPackages() and the functions calls can name. */
  datatype Program = Program(packages: seq<Package>, funcs: map<string, Function>)

  /** Every block a block names as a successor exists (predecessor lists are not checked). */
  predicate FunctionOk(f: Function) {
    forall b, s :: 0 <= b < |f.blocks| && 0 <= s < |f.blocks[b].succs| ==> f.blocks[b].succs[s] < |f.blocks|
  }

  predicate ProgramOk(p: Program) {
    forall name :: name in p.funcs ==> FunctionOk(p.funcs[name])
  }
}
