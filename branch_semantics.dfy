/**
 * The meaning of a run of the 05-branch engine (ch14/examples/05-branch/run.go),
 * as functions: a call runs the callee's blocks from Blocks[0] until a block
 * leaves none to go to; a block runs its instructions in order until a
 * Return, If or Jump leaves it or it runs off its end. The heap of global
 * cells and the text written to standard output are threaded through as a
 * World. A run is bounded by fuel: every block entered costs one unit, and
 * running out is reported as OutOfFuel (the engine itself would loop).
 */
module BranchSemantics {
  import opened Results
  import opened Values
  import OpsUnOp
  import OpsBinOp
  import GoToken
  import opened Ssa
  import opened EngineCore

  /** The state outside the frames: the global cells and the standard output so far. */
  datatype World = World(cells: seq<Value>, out: string)

  /** A Frame: env, result, the current block and the block control came from. */
  datatype FrameState = FrameState(env: map<nat, Value>, result: Value, block: Option<nat>, prev: Option<nat>)

  predicate Ready(prog: Program, table: map<string, nat>, w: World) {
    ProgramOk(prog) && CellsOk(w.cells) && TableOk(table, |w.cells|)
  }

  predicate FrameOk(fn: Function, fr: FrameState, n: nat) {
    EnvOk(fr.env, n) && ValOk(fr.result, n) && (fr.block.Some? ==> fr.block.value < |fn.blocks|)
  }

  /** What a step may do to the world: write cells in place and append output. */
  predicate Evolves(prog: Program, table: map<string, nat>, w: World, w': World) {
    Ready(prog, table, w') && |w'.cells| == |w.cells| && w.out <= w'.out
  }

  /** The index of the first predecessor that is the block control came from. */
  function PhiEdge(preds: seq<nat>, prev: Option<nat>, from: nat): (k: Option<nat>)
    requires from <= |preds|
    ensures k.Some? ==> (from <= k.value < |preds| && prev == Some(preds[k.value])
      && forall j :: from <= j < k.value ==> prev != Some(preds[j]))
    ensures k.None? ==> forall j :: from <= j < |preds| ==> prev != Some(preds[j])
    decreases |preds| - from
  {
    if from == |preds| then None
    else if prev == Some(preds[from]) then Some(from)
    else PhiEdge(preds, prev, from + 1)
  }

  /** The env after binding params[i] to args[i] in order. */
  function Bind(params: seq<nat>, args: seq<Value>): (env: map<nat, Value>)
    requires |params| <= |args|
    ensures env.Keys == set p | p in params
    decreases |params|
  {
    if |params| == 0 then map[]
    else Bind(params[..|params| - 1], args)[params[|params| - 1] := args[|params| - 1]]
  }

  /** A parameter is bound to the argument at its position (the last, should it repeat). */
  lemma {:induction false} BindValues(params: seq<nat>, args: seq<Value>, i: nat)
    requires |params| <= |args| && i < |params|
    requires forall j :: i < j < |params| ==> params[j] != params[i]
    ensures Bind(params, args)[params[i]] == args[i]
    decreases |params|
  {
    if i < |params| - 1 {
      BindValues(params[..|params| - 1], args, i);
    }
  }

  /** runFunc's parameter loop; a call with too few arguments panics on args[i]. */
  function BindParams(params: seq<nat>, args: seq<Value>): (r: Result<map<nat, Value>>)
    ensures r.Ok? <==> |params| <= |args|
    ensures r.Ok? ==> r.value == Bind(params, args)
    ensures r.Err? ==> r.panic == IndexOutOfRange
  {
    if |params| <= |args| then Ok(Bind(params, args)) else Err(IndexOutOfRange)
  }

  lemma {:induction false} BindOk(params: seq<nat>, args: seq<Value>, n: nat)
    requires |params| <= |args| && forall i :: 0 <= i < |args| ==> ValOk(args[i], n)
    ensures EnvOk(Bind(params, args), n)
    decreases |params|
  {
    if |params| > 0 {
      BindOk(params[..|params| - 1], args, n);
    }
  }

  /**
   * One instruction of runFrame's switch in block b. The flag says whether the
   * instruction leaves the block (Return, If, Jump).
   */
  function Step(fuel: nat, prog: Program, table: map<string, nat>, fn: Function, b: nat, ins: Instr, fr: FrameState, w: World):
    (r: Result<(FrameState, World, bool)>)
    requires Ready(prog, table, w) && FunctionOk(fn) && b < |fn.blocks| && FrameOk(fn, fr, |w.cells|)
    ensures r.Ok? ==> Evolves(prog, table, w, r.value.1) && FrameOk(fn, r.value.0, |w.cells|)
    decreases fuel, 2, 0
  {
    match ins
    case Store(addr, val) =>
      var a :- GetValue(table, fr.env, addr);
      GetValueProperties(table, fr.env, fr.env, addr, |w.cells|);
      if !a.PtrV? then Err(TypeAssertion)
      else
        var v :- GetValue(table, fr.env, val);
        GetValueProperties(table, fr.env, fr.env, val, |w.cells|);
        var cells :- StoreInto(w.cells, a.p, v);
        StoreKeepsCellsOk(w.cells, a.p, v);
        Ok((fr, w.(cells := cells), false))
    case UnOp(dest, op, x) =>
      var xv :- GetValue(table, fr.env, x);
      GetValueProperties(table, fr.env, fr.env, x, |w.cells|);
      var v :- OpsUnOp.UnOp(op, xv, w.cells);
      Ok((fr.(env := fr.env[dest := v]), w, false))
    case BinOp(dest, op, x, y) =>
      var xv :- GetValue(table, fr.env, x);
      var yv :- GetValue(table, fr.env, y);
      GetValueProperties(table, fr.env, fr.env, x, |w.cells|);
      GetValueProperties(table, fr.env, fr.env, y, |w.cells|);
      var v :- OpsBinOp.BinOp(op, xv, yv);
      Ok((fr.(env := fr.env[dest := v]), w, false))
    case Call(dest, callee, args, isMethod) =>
      if isMethod then Err(MethodCall)
      else
        var vs :- GetValues(table, fr.env, args);
        GetValuesOk(table, fr.env, args, |w.cells|);
        var res :- RunFunc(fuel, prog, table, callee, vs, w);
        Ok((fr.(env := fr.env[dest := res.0]), res.1, false))
    case Return(results) =>
      if |results| == 0 then Ok((fr.(block := None), w, true))
      else if |results| == 1 then
        var v :- GetValue(table, fr.env, results[0]);
        GetValueProperties(table, fr.env, fr.env, results[0], |w.cells|);
        Ok((fr.(result := v, block := None), w, true))
      else Err(MultiReturn)
    case If(cond) =>
      var c :- GetValue(table, fr.env, cond);
      if !c.BoolV? then Err(TypeAssertion)
      else
        var k := if c.b then 0 else 1;
        if k >= |fn.blocks[b].succs| then Err(IndexOutOfRange)
        else Ok((fr.(prev := Some(b), block := Some(fn.blocks[b].succs[k])), w, true))
    case Jump =>
      if |fn.blocks[b].succs| == 0 then Err(IndexOutOfRange)
      else Ok((fr.(prev := Some(b), block := Some(fn.blocks[b].succs[0])), w, true))
    case Phi(dest, edges) =>
      var k := PhiEdge(fn.blocks[b].preds, fr.prev, 0);
      if k.None? then Ok((fr, w, false))
      else if k.value >= |edges| then Err(IndexOutOfRange)
      else
        var v :- GetValue(table, fr.env, edges[k.value]);
        GetValueProperties(table, fr.env, fr.env, edges[k.value], |w.cells|);
        Ok((fr.(env := fr.env[dest := v]), w, false))
    case OtherInstr(_) => Err(UnknownInstruction)
  }

  /** runFrame from instruction i of block b: on to the next instruction until one leaves the block. */
  function RunInstrs(fuel: nat, prog: Program, table: map<string, nat>, fn: Function, b: nat, i: nat, fr: FrameState, w: World):
    (r: Result<(FrameState, World)>)
    requires Ready(prog, table, w) && FunctionOk(fn) && b < |fn.blocks| && i <= |fn.blocks[b].instrs|
    requires FrameOk(fn, fr, |w.cells|)
    ensures r.Ok? ==> Evolves(prog, table, w, r.value.1) && FrameOk(fn, r.value.0, |w.cells|)
    decreases fuel, 3, |fn.blocks[b].instrs| - i
  {
    if i == |fn.blocks[b].instrs| then Ok((fr.(block := None), w))
    else
      var s :- Step(fuel, prog, table, fn, b, fn.blocks[b].instrs[i], fr, w);
      if s.2 then Ok((s.0, s.1))
      else RunInstrs(fuel, prog, table, fn, b, i + 1, s.0, s.1)
  }

  /** runFunc's loop: run the current block while there is one; each block costs one unit of fuel. */
  function RunLoop(fuel: nat, prog: Program, table: map<string, nat>, fn: Function, fr: FrameState, w: World):
    (r: Result<(Value, World)>)
    requires Ready(prog, table, w) && FunctionOk(fn) && FrameOk(fn, fr, |w.cells|)
    ensures r.Ok? ==> Evolves(prog, table, w, r.value.1) && ValOk(r.value.0, |w.cells|)
    decreases fuel, 0, 0
  {
    if fr.block.None? then Ok((fr.result, w))
    else if fuel == 0 then Err(OutOfFuel)
    else
      var s :- RunInstrs(fuel - 1, prog, table, fn, fr.block.value, 0, fr, w);
      RunLoop(fuel - 1, prog, table, fn, s.0, s.1)
  }

  /**
   * runFunc: a builtin goes to callBuiltin; a function starts a fresh frame at
   * Blocks[0] with its parameters bound and returns the frame's result; any
   * other callee panics.
   */
  function RunFunc(fuel: nat, prog: Program, table: map<string, nat>, callee: Operand, args: seq<Value>, w: World):
    (r: Result<(Value, World)>)
    requires Ready(prog, table, w) && forall i :: 0 <= i < |args| ==> ValOk(args[i], |w.cells|)
    ensures r.Ok? ==> Evolves(prog, table, w, r.value.1) && ValOk(r.value.0, |w.cells|)
    decreases fuel, 1, 0
  {
    match callee
    case Builtin(name) =>
      var res :- CallBuiltin(name, args);
      Ok((res.0, w.(out := w.out + res.1)))
    case Fn(name) =>
      if name !in prog.funcs then Err(UnknownFunction)
      else
        var fn := prog.funcs[name];
        if |fn.blocks| == 0 then Err(IndexOutOfRange)
        else
          var env :- BindParams(fn.params, args);
          BindOk(fn.params, args, |w.cells|);
          RunLoop(fuel, prog, table, fn, FrameState(env, Nil, Some(0), None), w)
    case _ => Err(UnknownFunction)
  }

  // ------------------------------------------------------------ the cases of runFrame

  /** Store: the address must be a pointer; a nil one panics, otherwise only its cell changes. */
  lemma StepStore(fuel: nat, prog: Program, table: map<string, nat>, fn: Function, b: nat, fr: FrameState, w: World,
                  addr: Operand, val: Operand, a: Value)
    requires Ready(prog, table, w) && FunctionOk(fn) && b < |fn.blocks| && FrameOk(fn, fr, |w.cells|)
    requires GetValue(table, fr.env, addr) == Ok(a)
    ensures var r := Step(fuel, prog, table, fn, b, Store(addr, val), fr, w);
      var v := GetValue(table, fr.env, val);
      (!a.PtrV? ==> r == Err(TypeAssertion))
      && (a.PtrV? && v.Err? ==> r == Err(v.panic))
      && (a == PtrV(NilPtr) && v.Ok? ==> r == Err(NilDereference))
      && (a.PtrV? && a.p.Ref? && v.Ok? ==>
            a.p.addr < |w.cells| && r == Ok((fr, w.(cells := w.cells[a.p.addr := v.value]), false)))
  {
    GetValueProperties(table, fr.env, fr.env, addr, |w.cells|);
  }

  /** UnOp binds its register to waops.UnOp of the operand's value, or panics as that does. */
  lemma StepUnOp(fuel: nat, prog: Program, table: map<string, nat>, fn: Function, b: nat, fr: FrameState, w: World,
                 dest: nat, op: GoToken.Token, x: Operand, xv: Value)
    requires Ready(prog, table, w) && FunctionOk(fn) && b < |fn.blocks| && FrameOk(fn, fr, |w.cells|)
    requires GetValue(table, fr.env, x) == Ok(xv) && ValOk(xv, |w.cells|)
    ensures var r := Step(fuel, prog, table, fn, b, UnOp(dest, op, x), fr, w);
      var v := OpsUnOp.UnOp(op, xv, w.cells);
      r == if v.Ok? then Ok((fr.(env := fr.env[dest := v.value]), w, false)) else Err(v.panic)
  {
  }

  /** BinOp binds its register to waops.BinOp of the operands' values, or panics as that does. */
  lemma StepBinOp(fuel: nat, prog: Program, table: map<string, nat>, fn: Function, b: nat, fr: FrameState, w: World,
                  dest: nat, op: GoToken.Token, x: Operand, y: Operand, xv: Value, yv: Value)
    requires Ready(prog, table, w) && FunctionOk(fn) && b < |fn.blocks| && FrameOk(fn, fr, |w.cells|)
    requires GetValue(table, fr.env, x) == Ok(xv) && GetValue(table, fr.env, y) == Ok(yv)
    ensures var r := Step(fuel, prog, table, fn, b, BinOp(dest, op, x, y), fr, w);
      var v := OpsBinOp.BinOp(op, xv, yv);
      r == if v.Ok? then Ok((fr.(env := fr.env[dest := v.value]), w, false)) else Err(v.panic)
  {
  }

  /** prepareCall panics on a method call before it evaluates any argument. */
  lemma StepMethodCall(fuel: nat, prog: Program, table: map<string, nat>, fn: Function, b: nat, fr: FrameState, w: World,
                       dest: nat, callee: Operand, args: seq<Operand>)
    requires Ready(prog, table, w) && FunctionOk(fn) && b < |fn.blocks| && FrameOk(fn, fr, |w.cells|)
    ensures Step(fuel, prog, table, fn, b, Call(dest, callee, args, true), fr, w) == Err(MethodCall)
  {
  }

  /** A function call binds its register to the callee's result, run on the evaluated arguments. */
  lemma StepCall(fuel: nat, prog: Program, table: map<string, nat>, fn: Function, b: nat, fr: FrameState, w: World,
                 dest: nat, callee: Operand, args: seq<Operand>, vs: seq<Value>)
    requires Ready(prog, table, w) && FunctionOk(fn) && b < |fn.blocks| && FrameOk(fn, fr, |w.cells|)
    requires GetValues(table, fr.env, args) == Ok(vs) && forall i :: 0 <= i < |vs| ==> ValOk(vs[i], |w.cells|)
    ensures var r := Step(fuel, prog, table, fn, b, Call(dest, callee, args, false), fr, w);
      var res := RunFunc(fuel, prog, table, callee, vs, w);
      r == if res.Ok? then Ok((fr.(env := fr.env[dest := res.value.0]), res.value.1, false)) else Err(res.panic)
  {
  }

  /**
   * Return leaves the block and the function: no result keeps the frame's
   * result, one result becomes it, and more panic.
   */
  lemma StepReturn(fuel: nat, prog: Program, table: map<string, nat>, fn: Function, b: nat, fr: FrameState, w: World,
                   results: seq<Operand>)
    requires Ready(prog, table, w) && FunctionOk(fn) && b < |fn.blocks| && FrameOk(fn, fr, |w.cells|)
    ensures var r := Step(fuel, prog, table, fn, b, Return(results), fr, w);
      (r.Ok? ==> r.value.0.block.None? && r.value.2 && r.value.1 == w
                 && r.value.0.env == fr.env && r.value.0.prev == fr.prev)
      && (|results| == 0 ==> r.Ok? && r.value.0.result == fr.result)
      && (|results| == 1 ==> var v := GetValue(table, fr.env, results[0]);
            if v.Ok? then r.Ok? && r.value.0.result == v.value else r == Err(v.panic))
      && (|results| > 1 ==> r == Err(MultiReturn))
  {
  }

  /**
   * If on a boolean condition goes to Succs[0] when it holds and to Succs[1]
   * otherwise, and remembers the block it leaves; a missing successor panics.
   */
  lemma StepIf(fuel: nat, prog: Program, table: map<string, nat>, fn: Function, b: nat, fr: FrameState, w: World,
               cond: Operand, c: bool)
    requires Ready(prog, table, w) && FunctionOk(fn) && b < |fn.blocks| && FrameOk(fn, fr, |w.cells|)
    requires GetValue(table, fr.env, cond) == Ok(BoolV(c))
    ensures var r := Step(fuel, prog, table, fn, b, If(cond), fr, w);
      var succs := fn.blocks[b].succs;
      var k := if c then 0 else 1;
      r == if k < |succs| then Ok((fr.(prev := Some(b), block := Some(succs[k])), w, true)) else Err(IndexOutOfRange)
  {
  }

  /** If on a condition that is not a boolean fails the type assertion. */
  lemma StepIfNotBool(fuel: nat, prog: Program, table: map<string, nat>, fn: Function, b: nat, fr: FrameState, w: World,
                      cond: Operand, c: Value)
    requires Ready(prog, table, w) && FunctionOk(fn) && b < |fn.blocks| && FrameOk(fn, fr, |w.cells|)
    requires GetValue(table, fr.env, cond) == Ok(c) && !c.BoolV?
    ensures Step(fuel, prog, table, fn, b, If(cond), fr, w) == Err(TypeAssertion)
  {
  }

  /** Jump goes to Succs[0] and remembers the block it leaves. */
  lemma StepJump(fuel: nat, prog: Program, table: map<string, nat>, fn: Function, b: nat, fr: FrameState, w: World)
    requires Ready(prog, table, w) && FunctionOk(fn) && b < |fn.blocks| && FrameOk(fn, fr, |w.cells|)
    ensures var r := Step(fuel, prog, table, fn, b, Jump, fr, w);
      var succs := fn.blocks[b].succs;
      r == if |succs| > 0 then Ok((fr.(prev := Some(b), block := Some(succs[0])), w, true)) else Err(IndexOutOfRange)
  {
  }

  /**
   * Phi takes the edge of the first predecessor that is the block control came
   * from (k), and binds its register to that edge's value.
   */
  lemma StepPhi(fuel: nat, prog: Program, table: map<string, nat>, fn: Function, b: nat, fr: FrameState, w: World,
                dest: nat, edges: seq<Operand>, k: nat)
    requires Ready(prog, table, w) && FunctionOk(fn) && b < |fn.blocks| && FrameOk(fn, fr, |w.cells|)
    requires k < |fn.blocks[b].preds| && fr.prev == Some(fn.blocks[b].preds[k])
    requires forall j :: 0 <= j < k ==> fr.prev != Some(fn.blocks[b].preds[j])
    ensures var r := Step(fuel, prog, table, fn, b, Phi(dest, edges), fr, w);
      if k < |edges| then
        var v := GetValue(table, fr.env, edges[k]);
        r == if v.Ok? then Ok((fr.(env := fr.env[dest := v.value]), w, false)) else Err(v.panic)
      else r == Err(IndexOutOfRange)
  {
  }

  /** Phi with no predecessor matching the block control came from leaves the frame alone. */
  lemma StepPhiNoEdge(fuel: nat, prog: Program, table: map<string, nat>, fn: Function, b: nat, fr: FrameState, w: World,
                      dest: nat, edges: seq<Operand>)
    requires Ready(prog, table, w) && FunctionOk(fn) && b < |fn.blocks| && FrameOk(fn, fr, |w.cells|)
    requires forall j :: 0 <= j < |fn.blocks[b].preds| ==> fr.prev != Some(fn.blocks[b].preds[j])
    ensures Step(fuel, prog, table, fn, b, Phi(dest, edges), fr, w) == Ok((fr, w, false))
  {
  }

  /** Any other instruction panics. */
  lemma StepOther(fuel: nat, prog: Program, table: map<string, nat>, fn: Function, b: nat, fr: FrameState, w: World,
                  desc: string)
    requires Ready(prog, table, w) && FunctionOk(fn) && b < |fn.blocks| && FrameOk(fn, fr, |w.cells|)
    ensures Step(fuel, prog, table, fn, b, OtherInstr(desc), fr, w) == Err(UnknownInstruction)
  {
  }

  /** Running off the end of a block leaves the function with no block to go to. */
  lemma RunInstrsOffEnd(fuel: nat, prog: Program, table: map<string, nat>, fn: Function, b: nat, fr: FrameState, w: World)
    requires Ready(prog, table, w) && FunctionOk(fn) && b < |fn.blocks| && FrameOk(fn, fr, |w.cells|)
    ensures RunInstrs(fuel, prog, table, fn, b, |fn.blocks[b].instrs|, fr, w) == Ok((fr.(block := None), w))
  {
  }

  /**
   * Instruction i runs first: a panic ends the block, an instruction that
   * leaves the block ends it with nothing after it run, any other goes on with i + 1.
   */
  lemma RunInstrsStep(fuel: nat, prog: Program, table: map<string, nat>, fn: Function, b: nat, i: nat, fr: FrameState, w: World)
    requires Ready(prog, table, w) && FunctionOk(fn) && b < |fn.blocks| && i < |fn.blocks[b].instrs|
    requires FrameOk(fn, fr, |w.cells|)
    ensures var s := Step(fuel, prog, table, fn, b, fn.blocks[b].instrs[i], fr, w);
      var r := RunInstrs(fuel, prog, table, fn, b, i, fr, w);
      (s.Err? ==> r == Err(s.panic))
      && (s.Ok? && s.value.2 ==> r == Ok((s.value.0, s.value.1)))
      && (s.Ok? && !s.value.2 ==> r == RunInstrs(fuel, prog, table, fn, b, i + 1, s.value.0, s.value.1))
  {
  }

  /** With no block left, runFunc's loop stops and returns the frame's result. */
  lemma RunLoopNoBlock(fuel: nat, prog: Program, table: map<string, nat>, fn: Function, fr: FrameState, w: World)
    requires Ready(prog, table, w) && FunctionOk(fn) && FrameOk(fn, fr, |w.cells|)
    requires fr.block.None?
    ensures RunLoop(fuel, prog, table, fn, fr, w) == Ok((fr.result, w))
  {
  }

  /**
   * Calling a function starts at Blocks[0] in a fresh frame: the parameters
   * bound to the arguments, a nil result and no previous block.
   */
  lemma RunFuncEntry(fuel: nat, prog: Program, table: map<string, nat>, name: string, args: seq<Value>, w: World)
    requires Ready(prog, table, w) && forall i :: 0 <= i < |args| ==> ValOk(args[i], |w.cells|)
    requires name in prog.funcs && |prog.funcs[name].blocks| > 0 && |prog.funcs[name].params| <= |args|
    ensures EnvOk(Bind(prog.funcs[name].params, args), |w.cells|)
    ensures RunFunc(fuel, prog, table, Fn(name), args, w)
      == RunLoop(fuel, prog, table, prog.funcs[name], FrameState(Bind(prog.funcs[name].params, args), Nil, Some(0), None), w)
  {
    BindOk(prog.funcs[name].params, args, |w.cells|);
  }

  /** A call that cannot start panics: an unknown function, one without blocks, or too few arguments. */
  lemma RunFuncCannotStart(fuel: nat, prog: Program, table: map<string, nat>, callee: Operand, args: seq<Value>, w: World)
    requires Ready(prog, table, w) && forall i :: 0 <= i < |args| ==> ValOk(args[i], |w.cells|)
    ensures var r := RunFunc(fuel, prog, table, callee, args, w);
      (!callee.Fn? && !callee.Builtin? ==> r == Err(UnknownFunction))
      && (callee.Fn? && callee.name !in prog.funcs ==> r == Err(UnknownFunction))
      && (callee.Fn? && callee.name in prog.funcs && |prog.funcs[callee.name].blocks| == 0 ==> r == Err(IndexOutOfRange))
      && (callee.Fn? && callee.name in prog.funcs && |prog.funcs[callee.name].params| > |args| ==>
            r == Err(IndexOutOfRange))
  {
  }

  /** A builtin call returns callBuiltin's value and appends its text to the output. */
  lemma RunFuncBuiltin(fuel: nat, prog: Program, table: map<string, nat>, name: string, args: seq<Value>, w: World)
    requires Ready(prog, table, w) && forall i :: 0 <= i < |args| ==> ValOk(args[i], |w.cells|)
    ensures var r := RunFunc(fuel, prog, table, Builtin(name), args, w);
      var c := CallBuiltin(name, args);
      r == if c.Ok? then Ok((c.value.0, w.(out := w.out + c.value.1))) else Err(c.panic)
  {
  }

  // ------------------------------------------------------------ fuel

  /*
   * Fuel only bounds the run: a run that finishes (or panics) within some
   * fuel has exactly the same outcome with any larger fuel. The four lemmas
   * follow the mutual recursion of the four functions.
   */

  lemma {:induction false} StepFuel(f: nat, g: nat, prog: Program, table: map<string, nat>, fn: Function, b: nat, ins: Instr, fr: FrameState, w: World)
    requires Ready(prog, table, w) && FunctionOk(fn) && b < |fn.blocks| && FrameOk(fn, fr, |w.cells|)
    requires f <= g && Step(f, prog, table, fn, b, ins, fr, w) != Err(OutOfFuel)
    ensures Step(g, prog, table, fn, b, ins, fr, w) == Step(f, prog, table, fn, b, ins, fr, w)
    decreases f, 2, 0
  {
    match ins
    case Call(dest, callee, args, isMethod) =>
      if !isMethod && GetValues(table, fr.env, args).Ok? {
        var vs := GetValues(table, fr.env, args).value;
        GetValuesOk(table, fr.env, args, |w.cells|);
        RunFuncFuel(f, g, prog, table, callee, vs, w);
      }
    case _ =>
  }

  lemma {:induction false} RunInstrsFuel(f: nat, g: nat, prog: Program, table: map<string, nat>, fn: Function, b: nat, i: nat, fr: FrameState, w: World)
    requires Ready(prog, table, w) && FunctionOk(fn) && b < |fn.blocks| && i <= |fn.blocks[b].instrs|
    requires FrameOk(fn, fr, |w.cells|)
    requires f <= g && RunInstrs(f, prog, table, fn, b, i, fr, w) != Err(OutOfFuel)
    ensures RunInstrs(g, prog, table, fn, b, i, fr, w) == RunInstrs(f, prog, table, fn, b, i, fr, w)
    decreases f, 3, |fn.blocks[b].instrs| - i
  {
    if i < |fn.blocks[b].instrs| {
      var ins := fn.blocks[b].instrs[i];
      StepFuel(f, g, prog, table, fn, b, ins, fr, w);
      var s := Step(f, prog, table, fn, b, ins, fr, w);
      if s.Ok? && !s.value.2 {
        RunInstrsFuel(f, g, prog, table, fn, b, i + 1, s.value.0, s.value.1);
      }
    }
  }

  lemma {:induction false} RunLoopFuel(f: nat, g: nat, prog: Program, table: map<string, nat>, fn: Function, fr: FrameState, w: World)
    requires Ready(prog, table, w) && FunctionOk(fn) && FrameOk(fn, fr, |w.cells|)
    requires f <= g && RunLoop(f, prog, table, fn, fr, w) != Err(OutOfFuel)
    ensures RunLoop(g, prog, table, fn, fr, w) == RunLoop(f, prog, table, fn, fr, w)
    decreases f, 0, 0
  {
    if fr.block.Some? {
      assert f > 0;
      var b := fr.block.value;
      RunLoopUnfold(f, prog, table, fn, fr, w);
      RunLoopUnfold(g, prog, table, fn, fr, w);
      var s := RunInstrs(f - 1, prog, table, fn, b, 0, fr, w);
      assert s != Err(OutOfFuel);
      RunInstrsFuel(f - 1, g - 1, prog, table, fn, b, 0, fr, w);
      if s.Ok? {
        RunLoopFuel(f - 1, g - 1, prog, table, fn, s.value.0, s.value.1);
      }
    }
  }

  /** One turn of runFunc's loop. */
  lemma RunLoopUnfold(f: nat, prog: Program, table: map<string, nat>, fn: Function, fr: FrameState, w: World)
    requires Ready(prog, table, w) && FunctionOk(fn) && FrameOk(fn, fr, |w.cells|)
    requires f > 0 && fr.block.Some?
    ensures var s := RunInstrs(f - 1, prog, table, fn, fr.block.value, 0, fr, w);
      RunLoop(f, prog, table, fn, fr, w) == if s.Err? then Err(s.panic) else RunLoop(f - 1, prog, table, fn, s.value.0, s.value.1)
  {
  }

  lemma {:induction false} RunFuncFuel(f: nat, g: nat, prog: Program, table: map<string, nat>, callee: Operand, args: seq<Value>, w: World)
    requires Ready(prog, table, w) && forall i :: 0 <= i < |args| ==> ValOk(args[i], |w.cells|)
    requires f <= g && RunFunc(f, prog, table, callee, args, w) != Err(OutOfFuel)
    ensures RunFunc(g, prog, table, callee, args, w) == RunFunc(f, prog, table, callee, args, w)
    decreases f, 1, 0
  {
    if callee.Fn? && callee.name in prog.funcs {
      var fn := prog.funcs[callee.name];
      if |fn.blocks| > 0 && |fn.params| <= |args| {
        BindOk(fn.params, args, |w.cells|);
        RunLoopFuel(f, g, prog, table, fn, FrameState(Bind(fn.params, args), Nil, Some(0), None), w);
      }
    }
  }
}
