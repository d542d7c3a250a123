/**
 * The second interpreter (ch14/examples/02-global-var/run.go): it zero-
 * initialises the globals, then runs the entry block of a function once
 * inside runFunc's two banner lines. Of the instructions only Store, UnOp
 * and Call do anything (every other kind is skipped), and a call can only
 * reach a builtin. The frame is just the env of registers.
 */
module GlobalVarEngine {
  import opened Results
  import opened Values
  import OpsUnOp
  import opened Ssa
  import opened EngineCore
  import HelloEngine
  import BranchSemantics

  /** The heap and the standard output, as in the 05 engine. */
  type World = BranchSemantics.World

  predicate StateOk(table: map<string, nat>, env: map<nat, Value>, w: World) {
    CellsOk(w.cells) && TableOk(table, |w.cells|) && EnvOk(env, |w.cells|)
  }

  /** call: a plain call of a builtin goes to callBuiltin; every other call panics. */
  function Call(callee: Operand, isMethod: bool, args: seq<Value>): (r: Result<(Value, string)>)
    ensures r.Ok? ==> !isMethod && callee.Builtin?
    ensures !isMethod && callee.Builtin? ==> r == CallBuiltin(callee.name, args)
    ensures isMethod || !callee.Builtin? ==> r == Err(UnknownCall)
  {
    if !isMethod && callee.Builtin? then CallBuiltin(callee.name, args) else Err(UnknownCall)
  }

  /** One instruction of runFuncBlock's switch. */
  function Exec(table: map<string, nat>, ins: Instr, env: map<nat, Value>, w: World): (r: Result<(map<nat, Value>, World)>)
    requires StateOk(table, env, w)
    ensures r.Ok? ==> StateOk(table, r.value.0, r.value.1) && |r.value.1.cells| == |w.cells| && w.out <= r.value.1.out
    ensures !(ins.Store? || ins.UnOp? || ins.Call?) ==> r == Ok((env, w))
  {
    match ins
    case Store(addr, val) =>
      var a :- GetValue(table, env, addr);
      GetValueProperties(table, env, env, addr, |w.cells|);
      if !a.PtrV? then Err(TypeAssertion)
      else
        var v :- GetValue(table, env, val);
        GetValueProperties(table, env, env, val, |w.cells|);
        var cells :- StoreInto(w.cells, a.p, v);
        StoreKeepsCellsOk(w.cells, a.p, v);
        Ok((env, w.(cells := cells)))
    case UnOp(dest, op, x) =>
      var xv :- GetValue(table, env, x);
      GetValueProperties(table, env, env, x, |w.cells|);
      var v :- OpsUnOp.UnOp(op, xv, w.cells);
      Ok((env[dest := v], w))
    case Call(dest, callee, args, isMethod) =>
      var vs :- GetValues(table, env, args);
      var res :- Call(callee, isMethod, vs);
      Ok((env[dest := res.0], w.(out := w.out + res.1)))
    case _ => Ok((env, w))
  }

  /** runFuncBlock from instruction i on. */
  function RunBlock(table: map<string, nat>, instrs: seq<Instr>, i: nat, env: map<nat, Value>, w: World): (r: Result<(map<nat, Value>, World)>)
    requires i <= |instrs| && StateOk(table, env, w)
    ensures r.Ok? ==> StateOk(table, r.value.0, r.value.1) && |r.value.1.cells| == |w.cells| && w.out <= r.value.1.out
    decreases |instrs| - i
  {
    if i == |instrs| then Ok((env, w))
    else
      var s :- Exec(table, instrs[i], env, w);
      RunBlock(table, instrs, i + 1, s.0, s.1)
  }

  /** runFunc: the entry block, when there is one, runs once after the opening banner. */
  function RunEntry(table: map<string, nat>, fn: Function, env: map<nat, Value>, w: World): (r: Result<(map<nat, Value>, World)>)
    requires StateOk(table, env, w)
  {
    var w1 := w.(out := w.out + HelloEngine.BeginLine);
    var s :- if |fn.blocks| > 0 then RunBlock(table, fn.blocks[0].instrs, 0, env, w1) else Ok((env, w1));
    Ok((s.0, s.1.(out := s.1.out + HelloEngine.EndLine)))
  }

  class Frame {
    var env: map<nat, Value>

    constructor ()
      ensures env == map[]
    {
      env := map[];
    }
  }

  class Engine {
    const prog: Program
    const globals: Globals
    var out: string

    ghost predicate Valid()
      reads this, globals, globals.mem
    {
      globals.Valid()
    }

    function Now(): World
      reads this, globals.mem
    {
      BranchSemantics.World(globals.mem.cells, out)
    }

    constructor (prog: Program)
      ensures Valid() && this.prog == prog && fresh(globals) && fresh(globals.mem)
      ensures globals.mem.cells == [] && globals.table == map[] && !globals.initDone && out == ""
    {
      this.prog := prog;
      var mem := new Memory();
      globals := new Globals(mem);
      out := "";
    }

    method InitGlobals() returns (r: Result<()>)
      requires Valid()
      modifies globals, globals.mem
      ensures Valid() && globals.initDone
      ensures old(globals.initDone) ==> r == Ok(()) && globals.table == old(globals.table) && globals.mem.cells == old(globals.mem.cells)
      ensures !old(globals.initDone) ==>
        var spec := Install(AllMembers(prog.packages), old(globals.mem.cells), old(globals.table));
        (r.Ok? <==> spec.Ok?)
        && (spec.Ok? ==> globals.mem.cells == spec.value.0 && globals.table == spec.value.1)
        && (spec.Err? ==> r.panic == spec.panic)
    {
      r := globals.InitGlobals(prog.packages);
    }

    /** The case of runFuncBlock's switch for one instruction. */
    method ExecInstr(ins: Instr, fr: Frame) returns (r: Result<()>)
      requires Valid() && EnvOk(fr.env, |globals.mem.cells|)
      modifies this, globals.mem, fr
      ensures Valid() && |globals.mem.cells| == old(|globals.mem.cells|) && EnvOk(fr.env, |globals.mem.cells|)
      ensures var spec := Exec(globals.table, ins, old(fr.env), old(Now()));
        (r.Ok? <==> spec.Ok?)
        && (spec.Ok? ==> fr.env == spec.value.0 && Now() == spec.value.1)
        && (spec.Err? ==> r.panic == spec.panic)
    {
      var table := globals.table;
      ghost var n := |globals.mem.cells|;
      r := Ok(());
      match ins
      case Store(addr, val) =>
        var a := GetValue(table, fr.env, addr);
        if a.Err? {
          return Err(a.panic);
        }
        GetValueProperties(table, fr.env, fr.env, addr, n);
        if !a.value.PtrV? {
          return Err(TypeAssertion);
        }
        var v := GetValue(table, fr.env, val);
        if v.Err? {
          return Err(v.panic);
        }
        GetValueProperties(table, fr.env, fr.env, val, n);
        r := globals.mem.Store(a.value.p, v.value);
      case UnOp(dest, op, x) =>
        var xv := GetValue(table, fr.env, x);
        if xv.Err? {
          return Err(xv.panic);
        }
        GetValueProperties(table, fr.env, fr.env, x, n);
        var v := OpsUnOp.UnOp(op, xv.value, globals.mem.cells);
        if v.Err? {
          return Err(v.panic);
        }
        fr.env := fr.env[dest := v.value];
      case Call(dest, callee, args, isMethod) =>
        var vs := PrepareArgs(table, fr.env, args);
        if vs.Err? {
          return Err(vs.panic);
        }
        if isMethod || !callee.Builtin? {
          return Err(UnknownCall);
        }
        var res := RunBuiltin(callee.name, vs.value);
        if res.Err? {
          return Err(res.panic);
        }
        out := out + res.value.1;
        fr.env := fr.env[dest := res.value.0];
      case _ =>
    }

    /** runFuncBlock: every instruction of the block in order. */
    method RunFuncBlock(fr: Frame, instrs: seq<Instr>) returns (r: Result<()>)
      requires Valid() && EnvOk(fr.env, |globals.mem.cells|)
      modifies this, globals.mem, fr
      ensures Valid() && |globals.mem.cells| == old(|globals.mem.cells|) && EnvOk(fr.env, |globals.mem.cells|)
      ensures var spec := RunBlock(globals.table, instrs, 0, old(fr.env), old(Now()));
        (r.Ok? <==> spec.Ok?)
        && (spec.Ok? ==> fr.env == spec.value.0 && Now() == spec.value.1)
        && (spec.Err? ==> r.panic == spec.panic)
    {
      ghost var n := |globals.mem.cells|;
      ghost var spec := RunBlock(globals.table, instrs, 0, fr.env, Now());
      for i := 0 to |instrs|
        invariant Valid() && |globals.mem.cells| == n && EnvOk(fr.env, n)
        invariant RunBlock(globals.table, instrs, i, fr.env, Now()) == spec
      {
        r := ExecInstr(instrs[i], fr);
        if r.Err? {
          return;
        }
      }
      r := Ok(());
    }

    /**
     * runFunc: the opening banner, the entry block once, and the deferred
     * closing banner, which is written even when the block panics.
     */
    method RunFunc(fr: Frame, fn: Function) returns (r: Result<()>)
      requires Valid() && EnvOk(fr.env, |globals.mem.cells|)
      modifies this, globals.mem, fr
      ensures Valid() && |globals.mem.cells| == old(|globals.mem.cells|)
      ensures var spec := RunEntry(globals.table, fn, old(fr.env), old(Now()));
        (r.Ok? <==> spec.Ok?)
        && (spec.Ok? ==> fr.env == spec.value.0 && Now() == spec.value.1)
        && (spec.Err? ==> r.panic == spec.panic)
      ensures |out| >= |HelloEngine.EndLine| && out[|out| - |HelloEngine.EndLine|..] == HelloEngine.EndLine
    {
      out := out + HelloEngine.BeginLine;
      r := Ok(());
      if |fn.blocks| > 0 {
        var blk: Option<nat> := Some(0);
        while blk.Some?
          invariant Valid() && |globals.mem.cells| == old(|globals.mem.cells|)
          invariant blk.Some? ==> blk == Some(0) && fr.env == old(fr.env) && out == old(out) + HelloEngine.BeginLine && globals.mem.cells == old(globals.mem.cells)
          invariant blk.None? ==>
            var spec := RunBlock(globals.table, fn.blocks[0].instrs, 0, old(fr.env), old(Now()).(out := old(out) + HelloEngine.BeginLine));
            (r.Ok? <==> spec.Ok?) && (spec.Ok? ==> fr.env == spec.value.0 && Now() == spec.value.1) && (spec.Err? ==> r.panic == spec.panic)
          decreases if blk.Some? then 1 else 0
        {
          r := RunFuncBlock(fr, fn.blocks[0].instrs);
          blk := None;
          if r.Err? {
            break;
          }
        }
      }
      out := out + HelloEngine.EndLine;
    }
  }

  // ------------------------------------------------------------ against the 05 engine

  /**
   * On the instructions both engines execute, a Store, a UnOp and a plain
   * call of a builtin, a 02 step does exactly what the 05 step does.
   */
  lemma StepAgrees(fuel: nat, prog: Program, fn: Function, b: nat, table: map<string, nat>, ins: Instr, fr: BranchSemantics.FrameState, w: World)
    requires BranchSemantics.Ready(prog, table, w) && FunctionOk(fn) && b < |fn.blocks| && BranchSemantics.FrameOk(fn, fr, |w.cells|)
    requires ins.Store? || ins.UnOp? || (ins.Call? && !ins.isMethod && ins.callee.Builtin?)
    ensures var s5 := BranchSemantics.Step(fuel, prog, table, fn, b, ins, fr, w);
      var s2 := Exec(table, ins, fr.env, w);
      (s2.Ok? <==> s5.Ok?)
      && (s2.Ok? ==> s2.value.0 == s5.value.0.env && s2.value.1 == s5.value.1 && !s5.value.2)
      && (s2.Err? ==> s2.panic == s5.panic)
  {
  }

  /**
   * Where they differ: a 02 block skips a Return, If, Jump, Phi or any other
   * instruction, and a method call or a call of a function panics only after
   * its arguments have been evaluated.
   */
  lemma StepDiffers(table: map<string, nat>, ins: Instr, env: map<nat, Value>, w: World)
    requires StateOk(table, env, w)
    ensures ins.Return? || ins.If? || ins.Jump? || ins.Phi? || ins.OtherInstr? ==> Exec(table, ins, env, w) == Ok((env, w))
    ensures ins.Call? && (ins.isMethod || !ins.callee.Builtin?) ==>
      Exec(table, ins, env, w) == if GetValues(table, env, ins.args).Err? then Err(GetValues(table, env, ins.args).panic) else Err(UnknownCall)
  {
  }
}
