/**
 * The first interpreter (ch14/examples/01-hello/run.go): it runs the entry
 * block of a function once, and of all instructions only calls of the
 * println builtin do anything. println reads its arguments straight from the
 * SSA operands: int constants print in decimal, string constants print their
 * text, anything else prints nothing (the separating space is still
 * written). The text written to standard output is returned; a panic is
 * reported next to the text written before it.
 */
module HelloEngine {
  import opened Results
  import opened GoTypes
  import opened MachineInt
  import opened Decimal
  import opened Values
  import opened OpsConstValue
  import opened WaBuiltin
  import opened Ssa

  const BeginLine: string := "--- runFunc begin ---\n"
  const EndLine: string := "--- runFunc end   ---\n"

  /**
   * The text one println argument contributes: a constant whose underlying
   * type is int or untyped int prints int(Int64()) in decimal, a string
   * constant its value (StringVal panics on a value that is not a string);
   * everything else nothing.
   */
  function ArgText(o: Operand): (r: Result<string>)
    ensures !o.Const? ==> r == Ok("")
    ensures o.Const? && o.c.val.IntConst? && Underlying(o.c.typ) in {Basic(Integer(Int)), Basic(UntypedInt)} ==>
      r.Ok? && ParseInt(r.value) == Some(if InRange(Int64, o.c.val.i) then o.c.val.i else 0)
  {
    match o
    case Const(c) =>
      (match Underlying(c.typ)
       case Basic(kind) =>
         if kind == Integer(Int) || kind == UntypedInt then
           var n :- Int64Of(c.val);
           IntToStringRoundTrip(n);
           Ok(IntToString(n))
         else if kind == String then
           if c.val.StringConst? then Ok(c.val.s) else Err(BadConstant)
         else Ok("")
       case _ => Ok(""))
    case _ => Ok("")
  }

  /** What the buffer holds after the first k arguments. */
  function LineText(args: seq<Operand>, k: nat): Result<string>
    requires k <= |args|
    decreases k
  {
    if k == 0 then Ok("")
    else
      var init :- LineText(args, k - 1);
      var t :- ArgText(args[k - 1]);
      Ok(init + (if k > 1 then " " else "") + t)
  }

  /** The line println writes: all arguments, then the newline. Nothing is written on a panic. */
  function PrintlnText(args: seq<Operand>): Result<string> {
    var line :- LineText(args, |args|);
    Ok(line + "\n")
  }

  /** doCall: only a plain call of println writes anything. */
  function CallText(ins: Instr): Result<string> {
    if ins.Call? && !ins.isMethod && ins.callee == Builtin("println") then PrintlnText(ins.args) else Ok("")
  }

  /** runFuncBlock: the output of the instructions in order and whether one panicked. */
  function BlockText(instrs: seq<Instr>): (string, Result<()>)
    decreases |instrs|
  {
    if |instrs| == 0 then ("", Ok(()))
    else
      var init := BlockText(instrs[..|instrs| - 1]);
      if init.1.Err? then init
      else
        var t := CallText(instrs[|instrs| - 1]);
        if t.Err? then (init.0, Err(t.panic)) else (init.0 + t.value, Ok(()))
  }

  /** runFunc: the entry block (if any) between the two banner lines; the deferred one is written even on a panic. */
  function RunText(fn: Function): (string, Result<()>) {
    var body := if |fn.blocks| > 0 then BlockText(fn.blocks[0].instrs) else ("", Ok(()));
    (BeginLine + body.0 + EndLine, body.1)
  }

  /** callBuiltin: the text written and whether the call panicked. */
  method CallBuiltin(name: string, args: seq<Operand>) returns (text: string, r: Result<()>)
    ensures name == "println" ==> var spec := PrintlnText(args);
      (r.Ok? <==> spec.Ok?) && (spec.Ok? ==> text == spec.value) && (spec.Err? ==> text == "" && r.panic == spec.panic)
    ensures name != "println" ==> text == "" && r == Ok(())
  {
    text, r := "", Ok(());
    if name == "println" {
      var buf := "";
      for i := 0 to |args|
        invariant LineText(args, i) == Ok(buf)
      {
        ghost var before := buf;
        if i > 0 {
          buf := buf + " ";
        }
        var t := ArgText(args[i]);
        if t.Err? {
          LineTextErrSticks(args, i + 1);
          return "", Err(t.panic);
        }
        assert buf == before + (if i + 1 > 1 then " " else "");
        assert LineText(args, i + 1) == Ok(before + (if i + 1 > 1 then " " else "") + t.value);
        buf := buf + t.value;
      }
      buf := buf + "\n";
      text := buf;
    }
  }

  method DoCall(ins: Instr) returns (text: string, r: Result<()>)
    requires ins.Call?
    ensures var spec := CallText(ins);
      (r.Ok? <==> spec.Ok?) && (spec.Ok? ==> text == spec.value) && (spec.Err? ==> text == "" && r.panic == spec.panic)
  {
    text, r := "", Ok(());
    if !ins.isMethod {
      match ins.callee
      case Builtin(name) =>
        text, r := CallBuiltin(name, ins.args);
      case _ =>
    }
  }

  method RunFuncBlock(instrs: seq<Instr>) returns (text: string, r: Result<()>)
    ensures (text, r) == BlockText(instrs)
  {
    text, r := "", Ok(());
    for i := 0 to |instrs|
      invariant BlockText(instrs[..i]) == (text, Ok(()))
    {
      assert instrs[..i + 1][..i] == instrs[..i];
      assert BlockText(instrs[..i + 1]) == (if CallText(instrs[i]).Err? then (text, Err(CallText(instrs[i]).panic))
        else (text + CallText(instrs[i]).value, Ok(())));
      match instrs[i]
      case Call(_, _, _, _) =>
        var t, c := DoCall(instrs[i]);
        if c.Err? {
          BlockTextErrSticks(instrs, i + 1);
          return text, c;
        }
        text := text + t;
      case _ =>
        assert text + "" == text;
    }
    assert instrs[..|instrs|] == instrs;
  }

  method RunFunc(fn: Function) returns (text: string, r: Result<()>)
    ensures (text, r) == RunText(fn)
  {
    text, r := BeginLine, Ok(());
    assert BeginLine + "" == BeginLine;
    if |fn.blocks| > 0 {
      var blk: Option<nat> := Some(0);
      while blk.Some?
        invariant blk.Some? ==> blk == Some(0) && text == BeginLine
        invariant blk.None? ==> (text, r) == (BeginLine + BlockText(fn.blocks[0].instrs).0, BlockText(fn.blocks[0].instrs).1)
        decreases if blk.Some? then 1 else 0
      {
        var t, c := RunFuncBlock(fn.blocks[0].instrs);
        text, r := text + t, c;
        blk := None;
        if c.Err? {
          break;
        }
      }
    }
    text := text + EndLine;
  }

  lemma {:induction false} LineTextErrSticks(args: seq<Operand>, k: nat)
    requires 0 < k <= |args| && LineText(args, k - 1).Ok? && ArgText(args[k - 1]).Err?
    ensures PrintlnText(args) == Err(ArgText(args[k - 1]).panic)
  {
    LineTextErrFrom(args, k, |args|);
  }

  lemma {:induction false} LineTextErrFrom(args: seq<Operand>, k: nat, m: nat)
    requires 0 < k <= m <= |args| && LineText(args, k - 1).Ok? && ArgText(args[k - 1]).Err?
    ensures LineText(args, m) == Err(ArgText(args[k - 1]).panic)
    decreases m
  {
    if m > k {
      LineTextErrFrom(args, k, m - 1);
    }
  }

  lemma {:induction false} BlockTextErrSticks(instrs: seq<Instr>, k: nat)
    requires 0 < k <= |instrs| && BlockText(instrs[..k]).1.Err?
    ensures BlockText(instrs) == BlockText(instrs[..k])
    decreases |instrs|
  {
    if k < |instrs| {
      var init := instrs[..|instrs| - 1];
      assert init[..k] == instrs[..k];
      BlockTextErrSticks(init, k);
    } else {
      assert instrs[..k] == instrs;
    }
  }

  // ------------------------------------------------------------ agreement with the later engines

  /** An argument the 01 println prints: an int or untyped-int constant, or a string constant holding a string. */
  predicate Printable(o: Operand) {
    o.Const? && Underlying(o.c.typ).Basic?
    && var kind := Underlying(o.c.typ).kind;
    ((kind == Integer(Int) || kind == UntypedInt) && o.c.val.IntConst?)
    || (kind == String && o.c.val.StringConst?)
  }

  /**
   * For such an argument the 01 text is the text the later engines print for
   * the constant's value: an int constant out of the 64-bit range is 0 in both.
   */
  lemma ArgTextAgrees(o: Operand)
    requires Printable(o)
    ensures ConstValue(o.c).Ok? && ArgText(o) == Ok(ToString(ConstValue(o.c).value))
  {
    var kind := Underlying(o.c.typ).kind;
    if kind == Integer(Int) || kind == UntypedInt {
      var n := Int64Of(o.c.val).value;
      WrapInRange(Int, n);
      assert ConstValue(o.c) == Ok(IntV(Int, n));
    }
  }

  /** vals are the values the later engines compute for the arguments. */
  predicate ConstArgs(args: seq<Operand>, vals: seq<Value>) {
    |vals| == |args| && forall i :: 0 <= i < |args| ==> Printable(args[i]) && ConstValue(args[i].c) == Ok(vals[i])
  }

  lemma {:induction false} LineTextAgrees(args: seq<Operand>, vals: seq<Value>, k: nat)
    requires k <= |args| && ConstArgs(args, vals)
    ensures LineText(args, k) == Ok(Join(Texts(vals[..k]), " "))
    decreases k
  {
    if k > 0 {
      LineTextAgrees(args, vals, k - 1);
      LineTextAgreesStep(args, vals, k);
    }
  }

  lemma LineTextAgreesStep(args: seq<Operand>, vals: seq<Value>, k: nat)
    requires 0 < k <= |args| && ConstArgs(args, vals)
    requires LineText(args, k - 1) == Ok(Join(Texts(vals[..k - 1]), " "))
    ensures LineText(args, k) == Ok(Join(Texts(vals[..k]), " "))
  {
    var prev := Texts(vals[..k - 1]);
    var t := ToString(vals[k - 1]);
    ArgTextAgrees(args[k - 1]);
    assert ArgText(args[k - 1]) == Ok(t);
    assert LineText(args, k) == Ok(Join(prev, " ") + (if k > 1 then " " else "") + t);
    TextsSnoc(vals, k - 1);
    JoinSnoc(prev, t, " ");
    if k == 1 {
      assert Join(prev, " ") + "" + t == t;
    }
  }

  /**
   * On constant int and string arguments the 01 println writes exactly what
   * the print builtin of the later engines writes for the constants' values.
   */
  lemma PrintlnAgrees(args: seq<Operand>, vals: seq<Value>)
    requires ConstArgs(args, vals)
    ensures PrintlnText(args) == Ok(PrintText(true, vals))
  {
    LineTextAgrees(args, vals, |args|);
    assert vals[..|args|] == vals;
  }

  /**
   * Where they differ: a bool constant or an untyped string constant prints
   * nothing here, and so does every argument that is not a constant.
   */
  lemma ArgTextDiffers(b: bool, s: string, o: Operand)
    requires !o.Const?
    ensures ArgText(Operand.Const(Constant.Const(Basic(Bool), BoolConst(b)))) == Ok("")
    ensures ToString(ConstValue(Constant.Const(Basic(Bool), BoolConst(b))).value) == if b then "true" else "false"
    ensures ArgText(Operand.Const(Constant.Const(Basic(UntypedString), StringConst(s)))) == Ok("")
    ensures ArgText(o) == Ok("")
  {
  }

  /** Only plain println calls write: a block without one writes nothing and never panics. */
  lemma {:induction false} OnlyPrintlnWrites(instrs: seq<Instr>)
    requires forall i :: 0 <= i < |instrs| ==> !(instrs[i].Call? && !instrs[i].isMethod && instrs[i].callee == Builtin("println"))
    ensures BlockText(instrs) == ("", Ok(()))
    decreases |instrs|
  {
    if |instrs| > 0 {
      OnlyPrintlnWrites(instrs[..|instrs| - 1]);
      assert CallText(instrs[|instrs| - 1]) == Ok("");
      assert "" + "" == "";
    }
  }
}
