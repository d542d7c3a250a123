/**
 * The 05-branch engine itself (ch14/examples/05-branch/run.go): an Engine
 * whose globals live in a heap of cells and whose output goes to a
 * standard-output text, and a Frame per call whose env, result, block and
 * prevBlock fields the instructions update in place. Every method is
 * proved to do what the corresponding function of BranchSemantics says.
 */
module BranchEngine {
  import opened Results
  import opened Values
  import OpsUnOp
  import OpsBinOp
  import opened Ssa
  import opened EngineCore
  import opened BranchSemantics

  /** A call's frame. */
  class Frame {
    var env: map<nat, Value>
    var result: Value
    var block: Option<nat>
    var prevBlock: Option<nat>

    /** NewFrame: an empty env, a nil result and no block yet. */
    constructor ()
      ensures State() == FrameState(map[], Nil, None, None)
    {
      env := map[];
      result := Nil;
      block := None;
      prevBlock := None;
    }

    function State(): FrameState
      reads this
    {
      FrameState(env, result, block, prevBlock)
    }
  }

  class Engine {
    /** main.Prog: the packages and the functions a call can name. */
    const prog: Program
    /** initOnce and the globals map, with the cells the globals point to. */
    const globals: Globals
    /** Everything written to standard output so far. */
    var out: string

    ghost predicate Valid()
      reads this, globals, globals.mem
    {
      globals.Valid() && ProgramOk(prog)
    }

    function Now(): World
      reads this, globals.mem
    {
      World(globals.mem.cells, out)
    }

    /** NewEngine: no globals installed yet and nothing written. */
    constructor (prog: Program)
      requires ProgramOk(prog)
      ensures Valid() && this.prog == prog && fresh(globals) && fresh(globals.mem)
      ensures globals.mem.cells == [] && globals.table == map[] && !globals.initDone && out == ""
    {
      this.prog := prog;
      var mem := new Memory();
      globals := new Globals(mem);
      out := "";
    }

    /** initGlobals over all packages of the program. */
    method InitGlobals() returns (r: Result<()>)
      requires Valid()
      modifies globals, globals.mem
      ensures Valid() && globals.initDone
      ensures old(globals.initDone) ==> r == Ok(()) && globals.table == old(globals.table) && globals.mem.cells == old(globals.mem.cells)
      ensures !old(globals.initDone) ==>
        var spec := Install(AllMembers(prog.packages), old(globals.mem.cells), old(globals.table));
        (r.Ok? <==> spec.Ok?)
        && (spec.Ok? ==> globals.mem.cells == spec.value.0 && globals.table == spec.value.1)
        && (spec.Err? ==> r.panic == spec.panic)
    {
      r := globals.InitGlobals(prog.packages);
    }

    /** The outcome r of a method agrees with the outcome spec of its semantic function. */
    ghost predicate Agrees<T>(r: Result<T>, spec: Result<(T, World)>)
      reads this, globals.mem
    {
      (r.Ok? <==> spec.Ok?)
      && (spec.Ok? ==> r.value == spec.value.0 && Now() == spec.value.1)
      && (spec.Err? ==> r.panic == spec.panic)
    }

    /** callBuiltin: print and println append their text to standard output. */
    method CallBuiltin(name: string, args: seq<Value>) returns (r: Result<Value>)
      modifies this
      ensures var spec := EngineCore.CallBuiltin(name, args);
        (r.Ok? <==> spec.Ok?)
        && (spec.Ok? ==> r.value == spec.value.0 && out == old(out) + spec.value.1)
        && (spec.Err? ==> r.panic == spec.panic && out == old(out))
    {
      var res := RunBuiltin(name, args);
      if res.Err? {
        return Err(res.panic);
      }
      out := out + res.value.1;
      r := Ok(res.value.0);
    }

    /** prepareCall: a method call panics; otherwise the arguments' values left to right. */
    method PrepareCall(fr: Frame, isMethod: bool, os: seq<Operand>) returns (r: Result<seq<Value>>)
      ensures r == if isMethod then Err(MethodCall) else GetValues(globals.table, fr.env, os)
    {
      if isMethod {
        return Err(MethodCall);
      }
      r := PrepareArgs(globals.table, fr.env, os);
    }

    /** runFunc: dispatches on the callee; a function runs block after block until none is left. */
    method RunFunc(fuel: nat, callee: Operand, args: seq<Value>) returns (r: Result<Value>)
      requires Valid() && forall i :: 0 <= i < |args| ==> ValOk(args[i], |globals.mem.cells|)
      modifies this, globals.mem
      ensures Valid() && |globals.mem.cells| == old(|globals.mem.cells|)
      ensures Agrees(r, BranchSemantics.RunFunc(fuel, prog, globals.table, callee, args, old(Now())))
      decreases fuel, 1
    {
      match callee
      case Builtin(name) =>
        r := CallBuiltin(name, args);
      case Fn(name) =>
        if name !in prog.funcs {
          return Err(UnknownFunction);
        }
        var fn := prog.funcs[name];
        if |fn.blocks| == 0 {
          return Err(IndexOutOfRange);
        }
        var fr := new Frame();
        fr.block := Some(0);
        for i := 0 to |fn.params|
          invariant i <= |args| && fr.env == Bind(fn.params[..i], args)
          invariant fr.result == Nil && fr.block == Some(0) && fr.prevBlock == None
          invariant Valid() && Now() == old(Now())
        {
          if i >= |args| {
            return Err(IndexOutOfRange);
          }
          assert fn.params[..i + 1][..i] == fn.params[..i];
          fr.env := fr.env[fn.params[i] := args[i]];
        }
        assert fn.params[..|fn.params|] == fn.params;
        BindOk(fn.params, args, |globals.mem.cells|);
        r := RunBlocks(fuel, fn, fr);
      case _ =>
        r := Err(UnknownFunction);
    }

    /** runFunc's loop: runFrame while the frame has a block; each block costs one unit of fuel. */
    method RunBlocks(fuel: nat, fn: Function, fr: Frame) returns (r: Result<Value>)
      requires Valid() && FunctionOk(fn) && FrameOk(fn, fr.State(), |globals.mem.cells|)
      modifies this, globals.mem, fr
      ensures Valid() && |globals.mem.cells| == old(|globals.mem.cells|)
      ensures Agrees(r, RunLoop(fuel, prog, globals.table, fn, old(fr.State()), old(Now())))
      decreases fuel, 0
    {
      ghost var n := |globals.mem.cells|;
      ghost var spec := RunLoop(fuel, prog, globals.table, fn, fr.State(), Now());
      var f: nat := fuel;
      while fr.block.Some?
        invariant Valid() && |globals.mem.cells| == n && FrameOk(fn, fr.State(), n)
        invariant f <= fuel
        invariant RunLoop(f, prog, globals.table, fn, fr.State(), Now()) == spec
        decreases f
      {
        if f == 0 {
          assert spec == Err(OutOfFuel);
          return Err(OutOfFuel);
        }
        var s := Turn(f, fn, fr);
        if s.Err? {
          return Err(s.panic);
        }
        f := f - 1;
      }
      assert spec == Ok((fr.result, Now()));
      r := Ok(fr.result);
    }

    /** One turn of runFunc's loop: runFrame on the current block. */
    method Turn(f: nat, fn: Function, fr: Frame) returns (s: Result<()>)
      requires Valid() && FunctionOk(fn) && FrameOk(fn, fr.State(), |globals.mem.cells|)
      requires f > 0 && fr.block.Some?
      modifies this, globals.mem, fr
      ensures Valid() && |globals.mem.cells| == old(|globals.mem.cells|)
      ensures var spec := RunLoop(f, prog, globals.table, fn, old(fr.State()), old(Now()));
        (s.Err? ==> spec == Err(s.panic))
        && (s.Ok? ==> FrameOk(fn, fr.State(), |globals.mem.cells|)
                      && spec == RunLoop(f - 1, prog, globals.table, fn, fr.State(), Now()))
      decreases f - 1, 4
    {
      ghost var st0, w0 := fr.State(), Now();
      RunLoopUnfold(f, prog, globals.table, fn, st0, w0);
      s := RunFrame(f - 1, fn, fr);
    }

    /** runFrame: the instructions of the frame's block in order, until one leaves the block. */
    method RunFrame(fuel: nat, fn: Function, fr: Frame) returns (r: Result<()>)
      requires Valid() && FunctionOk(fn) && fr.block.Some? && fr.block.value < |fn.blocks|
      requires FrameOk(fn, fr.State(), |globals.mem.cells|)
      modifies this, globals.mem, fr
      ensures Valid() && |globals.mem.cells| == old(|globals.mem.cells|)
      ensures var spec := RunInstrs(fuel, prog, globals.table, fn, old(fr.block.value), 0, old(fr.State()), old(Now()));
        (r.Ok? <==> spec.Ok?)
        && (spec.Ok? ==> fr.State() == spec.value.0 && Now() == spec.value.1)
        && (spec.Err? ==> r.panic == spec.panic)
      decreases fuel, 3
    {
      var b := fr.block.value;
      var instrs := fn.blocks[b].instrs;
      ghost var n := |globals.mem.cells|;
      ghost var spec := RunInstrs(fuel, prog, globals.table, fn, b, 0, fr.State(), Now());
      for i := 0 to |instrs|
        invariant Valid() && |globals.mem.cells| == n && FrameOk(fn, fr.State(), n)
        invariant RunInstrs(fuel, prog, globals.table, fn, b, i, fr.State(), Now()) == spec
      {
        var done := Exec(fuel, fn, b, instrs[i], fr);
        if done.Err? {
          return Err(done.panic);
        }
        if done.value {
          return Ok(());
        }
      }
      fr.block := None;
      r := Ok(());
    }

    /** One case of runFrame's switch; the result says whether the instruction left the block. */
    method Exec(fuel: nat, fn: Function, b: nat, ins: Instr, fr: Frame) returns (r: Result<bool>)
      requires Valid() && FunctionOk(fn) && b < |fn.blocks| && FrameOk(fn, fr.State(), |globals.mem.cells|)
      modifies this, globals.mem, fr
      ensures Valid() && |globals.mem.cells| == old(|globals.mem.cells|)
      ensures var spec := Step(fuel, prog, globals.table, fn, b, ins, old(fr.State()), old(Now()));
        (r.Ok? <==> spec.Ok?)
        && (spec.Ok? ==> r.value == spec.value.2 && fr.State() == spec.value.0 && Now() == spec.value.1)
        && (spec.Err? ==> r.panic == spec.panic)
      decreases fuel, 2
    {
      var table := globals.table;
      ghost var n := |globals.mem.cells|;
      match ins
      case Store(addr, val) =>
        var a := GetValue(table, fr.env, addr);
        if a.Err? {
          return Err(a.panic);
        }
        GetValueProperties(table, fr.env, fr.env, addr, n);
        if !a.value.PtrV? {
          return Err(TypeAssertion);
        }
        var v := GetValue(table, fr.env, val);
        if v.Err? {
          return Err(v.panic);
        }
        GetValueProperties(table, fr.env, fr.env, val, n);
        var s := globals.mem.Store(a.value.p, v.value);
        if s.Err? {
          return Err(s.panic);
        }
        r := Ok(false);
      case UnOp(dest, op, x) =>
        var xv := GetValue(table, fr.env, x);
        if xv.Err? {
          return Err(xv.panic);
        }
        GetValueProperties(table, fr.env, fr.env, x, n);
        var v := OpsUnOp.UnOp(op, xv.value, globals.mem.cells);
        if v.Err? {
          return Err(v.panic);
        }
        fr.env := fr.env[dest := v.value];
        r := Ok(false);
      case BinOp(dest, op, x, y) =>
        var xv := GetValue(table, fr.env, x);
        if xv.Err? {
          return Err(xv.panic);
        }
        var yv := GetValue(table, fr.env, y);
        if yv.Err? {
          return Err(yv.panic);
        }
        GetValueProperties(table, fr.env, fr.env, x, n);
        GetValueProperties(table, fr.env, fr.env, y, n);
        var v := OpsBinOp.BinOp(op, xv.value, yv.value);
        if v.Err? {
          return Err(v.panic);
        }
        fr.env := fr.env[dest := v.value];
        r := Ok(false);
      case Call(dest, callee, args, isMethod) =>
        r := ExecCall(fuel, fn, b, dest, callee, args, isMethod, fr);
      case Return(results) =>
        if |results| == 1 {
          var v := GetValue(table, fr.env, results[0]);
          if v.Err? {
            return Err(v.panic);
          }
          fr.result := v.value;
        } else if |results| > 1 {
          return Err(MultiReturn);
        }
        fr.block := None;
        r := Ok(true);
      case If(cond) =>
        var c := GetValue(table, fr.env, cond);
        if c.Err? {
          return Err(c.panic);
        }
        if !c.value.BoolV? {
          return Err(TypeAssertion);
        }
        var k := if c.value.b then 0 else 1;
        if k >= |fn.blocks[b].succs| {
          return Err(IndexOutOfRange);
        }
        fr.prevBlock, fr.block := Some(b), Some(fn.blocks[b].succs[k]);
        r := Ok(true);
      case Jump =>
        if |fn.blocks[b].succs| == 0 {
          return Err(IndexOutOfRange);
        }
        fr.prevBlock, fr.block := Some(b), Some(fn.blocks[b].succs[0]);
        r := Ok(true);
      case Phi(dest, edges) =>
        r := ExecPhi(fuel, fn, b, dest, edges, fr);
      case OtherInstr(_) =>
        r := Err(UnknownInstruction);
    }

    /** The call case of runFrame: evaluate the arguments, then run the callee. */
    method ExecCall(fuel: nat, fn: Function, b: nat, dest: nat, callee: Operand, args: seq<Operand>, isMethod: bool, fr: Frame) returns (r: Result<bool>)
      requires Valid() && FunctionOk(fn) && b < |fn.blocks| && FrameOk(fn, fr.State(), |globals.mem.cells|)
      modifies this, globals.mem, fr
      ensures Valid() && |globals.mem.cells| == old(|globals.mem.cells|)
      ensures var spec := Step(fuel, prog, globals.table, fn, b, Call(dest, callee, args, isMethod), old(fr.State()), old(Now()));
        (r.Ok? <==> spec.Ok?)
        && (spec.Ok? ==> r.value == spec.value.2 && fr.State() == spec.value.0 && Now() == spec.value.1)
        && (spec.Err? ==> r.panic == spec.panic)
      decreases fuel, 2, 0
    {
      var table := globals.table;
      ghost var n := |globals.mem.cells|;
      var vs := PrepareCall(fr, isMethod, args);
      if vs.Err? {
        return Err(vs.panic);
      }
      GetValuesOk(table, fr.env, args, n);
      var res := RunFunc(fuel, callee, vs.value);
      if res.Err? {
        return Err(res.panic);
      }
      fr.env := fr.env[dest := res.value];
      r := Ok(false);
    }

    /** The phi case of runFrame: take the edge of the block control came from. */
    method ExecPhi(fuel: nat, fn: Function, b: nat, dest: nat, edges: seq<Operand>, fr: Frame) returns (r: Result<bool>)
      requires Valid() && FunctionOk(fn) && b < |fn.blocks| && FrameOk(fn, fr.State(), |globals.mem.cells|)
      modifies this, globals.mem, fr
      ensures Valid() && |globals.mem.cells| == old(|globals.mem.cells|)
      ensures var spec := Step(fuel, prog, globals.table, fn, b, Phi(dest, edges), old(fr.State()), old(Now()));
        (r.Ok? <==> spec.Ok?)
        && (spec.Ok? ==> r.value == spec.value.2 && fr.State() == spec.value.0 && Now() == spec.value.1)
        && (spec.Err? ==> r.panic == spec.panic)
    {
      var table := globals.table;
      var preds := fn.blocks[b].preds;
      for k := 0 to |preds|
        invariant forall j :: 0 <= j < k ==> fr.prevBlock != Some(preds[j])
      {
        if fr.prevBlock == Some(preds[k]) {
          if k >= |edges| {
            return Err(IndexOutOfRange);
          }
          var v := GetValue(table, fr.env, edges[k]);
          if v.Err? {
            return Err(v.panic);
          }
          fr.env := fr.env[dest := v.value];
          return Ok(false);
        }
      }
      r := Ok(false);
    }
  }
}
