/**
 * What the 02-global-var and 05-branch engines share (their run.go files
 * carry identical copies of it): the table of globals with its once-only
 * zero initialisation (getGlobal, setGlobal, initGlobals), operand
 * resolution (getValue) and the builtin dispatch (callBuiltin).
 */
module EngineCore {
  import opened Results
  import opened GoTypes
  import opened Values
  import opened OpsZero
  import opened OpsConstValue
  import opened WaBuiltin
  import opened Ssa

  // ------------------------------------------------------------ well-formed state

  /** A value that is canonical and points, if at all, into a heap of n cells. */
  predicate ValOk(v: Value, n: nat) {
    Canonical(v) && PtrIn(v, n)
  }

  predicate EnvOk(env: map<nat, Value>, n: nat) {
    forall r :: r in env ==> ValOk(env[r], n)
  }

  /** Every global's cell lies inside a heap of n cells. */
  predicate TableOk(table: map<string, nat>, n: nat) {
    forall g :: g in table ==> table[g] < n
  }

  // ------------------------------------------------------------ initGlobals

  /** The package members in the order the two nested loops of initGlobals visit them. */
  function AllMembers(pkgs: seq<Package>): seq<Member>
    decreases |pkgs|
  {
    if |pkgs| == 0 then [] else AllMembers(pkgs[..|pkgs| - 1]) + pkgs[|pkgs| - 1].members
  }

  /** One step of initGlobals: a global gets a fresh cell holding Zero(Deref(its type)). */
  function InstallOne(m: Member, cells: seq<Value>, table: map<string, nat>): (r: Result<(seq<Value>, map<string, nat>)>)
    ensures r.Ok? ==> |r.value.0| >= |cells| && r.value.0[..|cells|] == cells
    ensures CellsOk(cells) && TableOk(table, |cells|) && r.Ok? ==>
      CellsOk(r.value.0) && TableOk(r.value.1, |r.value.0|)
  {
    match m
    case GlobalVar(name, typ) =>
      var z :- Zero(Deref(typ));
      assert (cells + [z])[..|cells|] == cells;
      Ok((cells + [z], table[name := |cells|]))
    case OtherMember(_) => Ok((cells, table))
  }

  /** The cells and table after visiting the members ms in order; the first failing Zero panics. */
  function Install(ms: seq<Member>, cells: seq<Value>, table: map<string, nat>): (r: Result<(seq<Value>, map<string, nat>)>)
    ensures r.Ok? ==> |r.value.0| >= |cells| && r.value.0[..|cells|] == cells
    ensures CellsOk(cells) && TableOk(table, |cells|) && r.Ok? ==>
      CellsOk(r.value.0) && TableOk(r.value.1, |r.value.0|)
    decreases |ms|
  {
    if |ms| == 0 then Ok((cells, table))
    else
      var st :- Install(ms[..|ms| - 1], cells, table);
      InstallOne(ms[|ms| - 1], st.0, st.1)
  }

  /** Visiting one more member is one more InstallOne. */
  lemma InstallSnoc(done: seq<Member>, m: Member, cells: seq<Value>, table: map<string, nat>)
    ensures Install(done + [m], cells, table) ==
      if Install(done, cells, table).Err? then Install(done, cells, table)
      else InstallOne(m, Install(done, cells, table).value.0, Install(done, cells, table).value.1)
  {
    assert (done + [m])[..|done|] == done;
  }

  /** Once a member has panicked, the members after it are never visited. */
  lemma {:induction false} InstallErrSticks(a: seq<Member>, b: seq<Member>, cells: seq<Value>, table: map<string, nat>)
    requires Install(a, cells, table).Err?
    ensures Install(a + b, cells, table) == Install(a, cells, table)
    decreases |b|
  {
    if |b| == 0 {
      assert a + b == a;
    } else {
      var b' := b[..|b| - 1];
      assert (a + b)[..|a + b| - 1] == a + b';
      InstallErrSticks(a, b', cells, table);
    }
  }

  lemma {:induction false} AllMembersAppend(p: seq<Package>, q: seq<Package>)
    ensures AllMembers(p + q) == AllMembers(p) + AllMembers(q)
    decreases |q|
  {
    if |q| == 0 {
      assert p + q == p;
    } else {
      var q' := q[..|q| - 1];
      assert (p + q)[..|p + q| - 1] == p + q';
      AllMembersAppend(p, q');
    }
  }

  /** A panic at member j of package i is the panic of the whole initialisation. */
  lemma PanicEndsInstall(pkgs: seq<Package>, i: nat, j: nat, cells: seq<Value>, table: map<string, nat>)
    requires i < |pkgs| && j < |pkgs[i].members|
    requires Install(AllMembers(pkgs[..i]) + pkgs[i].members[..j + 1], cells, table).Err?
    ensures Install(AllMembers(pkgs), cells, table) == Install(AllMembers(pkgs[..i]) + pkgs[i].members[..j + 1], cells, table)
  {
    var members := pkgs[i].members;
    AllMembersSplit(pkgs, i, j);
    InstallErrSticks(AllMembers(pkgs[..i]) + members[..j + 1], members[j + 1..] + AllMembers(pkgs[i + 1..]), cells, table);
  }

  /** The members of all packages, cut after member j of package i. */
  lemma AllMembersSplit(pkgs: seq<Package>, i: nat, j: nat)
    requires i < |pkgs| && j < |pkgs[i].members|
    ensures var members := pkgs[i].members;
      AllMembers(pkgs) == (AllMembers(pkgs[..i]) + members[..j + 1]) + (members[j + 1..] + AllMembers(pkgs[i + 1..]))
  {
    var members := pkgs[i].members;
    AllMembersAround(pkgs, i);
    assert members == members[..j + 1] + members[j + 1..];
    Regroup(AllMembers(pkgs[..i]), members[..j + 1], members[j + 1..], AllMembers(pkgs[i + 1..]));
  }

  /** The members of all packages are those before package i, then its own, then those after it. */
  lemma AllMembersAround(pkgs: seq<Package>, i: nat)
    requires i < |pkgs|
    ensures AllMembers(pkgs) == (AllMembers(pkgs[..i]) + pkgs[i].members) + AllMembers(pkgs[i + 1..])
  {
    var pre, post := pkgs[..i], pkgs[i + 1..];
    var head := pre + [pkgs[i]];
    SplitAround(pkgs, i);
    calc {
      AllMembers(pkgs);
      AllMembers(head + post);
      { AllMembersAppend(head, post); }
      AllMembers(head) + AllMembers(post);
      { AllMembersSnoc(pre, pkgs[i]); }
      (AllMembers(pre) + pkgs[i].members) + AllMembers(post);
    }
  }

  lemma AllMembersSnoc(pkgs: seq<Package>, p: Package)
    ensures AllMembers(pkgs + [p]) == AllMembers(pkgs) + p.members
  {
    assert (pkgs + [p])[..|pkgs|] == pkgs;
  }

  lemma SplitAround<T>(s: seq<T>, i: nat)
    requires i < |s|
    ensures s == (s[..i] + [s[i]]) + s[i + 1..]
  {
  }

  lemma Regroup(a: seq<Member>, m1: seq<Member>, m2: seq<Member>, b: seq<Member>)
    ensures (a + (m1 + m2)) + b == (a + m1) + (m2 + b)
  {
  }

  /** The names of the globals among ms. */
  function GlobalNames(ms: seq<Member>): set<string> {
    set i | 0 <= i < |ms| && ms[i].GlobalVar? :: ms[i].name
  }

  /** No two globals among ms have the same qualified name (RelString makes them unique). */
  predicate DistinctGlobals(ms: seq<Member>) {
    forall i, j :: 0 <= i < j < |ms| && ms[i].GlobalVar? && ms[j].GlobalVar? ==> ms[i].name != ms[j].name
  }

  lemma GlobalNamesSnoc(ms: seq<Member>)
    requires |ms| > 0
    ensures GlobalNames(ms) == GlobalNames(ms[..|ms| - 1]) + (if ms[|ms| - 1].GlobalVar? then {ms[|ms| - 1].name} else {})
  {
    var init := ms[..|ms| - 1];
    forall g | g in GlobalNames(ms)
      ensures g in GlobalNames(init) || (ms[|ms| - 1].GlobalVar? && g == ms[|ms| - 1].name)
    {
      var i :| 0 <= i < |ms| && ms[i].GlobalVar? && ms[i].name == g;
      if i < |ms| - 1 {
        assert init[i] == ms[i];
      }
    }
    forall g | g in GlobalNames(init)
      ensures g in GlobalNames(ms)
    {
      var i :| 0 <= i < |init| && init[i].GlobalVar? && init[i].name == g;
      assert ms[i] == init[i];
    }
  }

  /** Initialisation succeeds exactly when every global's element type has a zero value. */
  lemma {:induction false} InstallSucceeds(ms: seq<Member>, cells: seq<Value>, table: map<string, nat>)
    ensures Install(ms, cells, table).Ok? <==>
      forall i :: 0 <= i < |ms| && ms[i].GlobalVar? ==> Zero(Deref(ms[i].typ)).Ok?
    decreases |ms|
  {
    if |ms| > 0 {
      var init := ms[..|ms| - 1];
      InstallSucceeds(init, cells, table);
      assert forall i :: 0 <= i < |init| ==> init[i] == ms[i];
    }
  }

  /**
   * The table after initialisation names exactly the old names and the
   * globals; a name that is not a global keeps its old cell.
   */
  lemma {:induction false} InstallTable(ms: seq<Member>, cells: seq<Value>, table: map<string, nat>)
    requires Install(ms, cells, table).Ok?
    ensures Install(ms, cells, table).value.1.Keys == table.Keys + GlobalNames(ms)
    ensures forall g :: g in table && g !in GlobalNames(ms) ==> Install(ms, cells, table).value.1[g] == table[g]
    decreases |ms|
  {
    if |ms| > 0 {
      var init := ms[..|ms| - 1];
      InstallTable(init, cells, table);
      GlobalNamesSnoc(ms);
    }
  }

  /**
   * Every global gets a cell of its own beyond the old ones, in declaration
   * order, holding the zero value of the global's element type.
   */
  lemma {:induction false} InstallCells(ms: seq<Member>, cells: seq<Value>, table: map<string, nat>)
    requires DistinctGlobals(ms) && Install(ms, cells, table).Ok?
    ensures var st := Install(ms, cells, table).value;
      forall i :: 0 <= i < |ms| && ms[i].GlobalVar? ==>
        ms[i].name in st.1 && |cells| <= st.1[ms[i].name] < |st.0| && Zero(Deref(ms[i].typ)) == Ok(st.0[st.1[ms[i].name]])
    ensures var st := Install(ms, cells, table).value;
      forall i, j :: 0 <= i < j < |ms| && ms[i].GlobalVar? && ms[j].GlobalVar? ==>
        ms[i].name in st.1 && ms[j].name in st.1 && st.1[ms[i].name] < st.1[ms[j].name]
    decreases |ms|
  {
    if |ms| > 0 {
      var init, m := ms[..|ms| - 1], ms[|ms| - 1];
      assert forall i :: 0 <= i < |init| ==> init[i] == ms[i];
      assert DistinctGlobals(init);
      var st := Install(init, cells, table).value;
      InstallCells(init, cells, table);
      match m
      case OtherMember(_) =>
        assert Install(ms, cells, table) == Ok(st);
      case GlobalVar(name, typ) =>
        var z := Zero(Deref(typ)).value;
        var fin := (st.0 + [z], st.1[name := |st.0|]);
        assert Install(ms, cells, table) == Ok(fin);
        forall i | 0 <= i < |ms| && ms[i].GlobalVar?
          ensures ms[i].name in fin.1 && |cells| <= fin.1[ms[i].name] < |fin.0|
          ensures Zero(Deref(ms[i].typ)) == Ok(fin.0[fin.1[ms[i].name]])
        {
          if i < |ms| - 1 {
            assert ms[i].name != name;
          }
        }
        forall i, j | 0 <= i < j < |ms| && ms[i].GlobalVar? && ms[j].GlobalVar?
          ensures ms[i].name in fin.1 && ms[j].name in fin.1 && fin.1[ms[i].name] < fin.1[ms[j].name]
        {
          assert ms[i].name != name;
          if j < |ms| - 1 {
            assert ms[j].name != name;
          }
        }
    }
  }

  /** The Engine fields that hold the globals: the once guard, the table and the heap of cells. */
  class Globals {
    const mem: Memory
    var initDone: bool
    var table: map<string, nat>

    ghost predicate Valid()
      reads this, mem
    {
      mem.Valid() && TableOk(table, |mem.cells|)
    }

    constructor (mem: Memory)
      requires mem.Valid()
      ensures Valid() && this.mem == mem && !initDone && table == map[]
    {
      this.mem := mem;
      initDone := false;
      table := map[];
    }

    /** getGlobal: the cell of the global with this qualified name, if it has one. */
    function GetGlobal(name: string): (r: Option<nat>)
      reads this
      ensures r.Some? <==> name in table
      ensures r.Some? ==> r.value == table[name]
    {
      if name in table then Some(table[name]) else None
    }

    /** setGlobal: the name now maps to the cell a, and every other name keeps its cell. */
    method SetGlobal(name: string, a: nat)
      modifies this
      ensures table == old(table)[name := a] && initDone == old(initDone)
      ensures GetGlobal(name) == Some(a)
      ensures forall g :: g != name ==> GetGlobal(g) == old(GetGlobal(g))
    {
      table := table[name := a];
    }

    /** The body of initGlobals' inner loop: a global gets a fresh cell holding its zero value. */
    method InitMember(m: Member) returns (r: Result<()>)
      requires Valid()
      modifies this, mem
      ensures Valid() && initDone == old(initDone)
      ensures var spec := InstallOne(m, old(mem.cells), old(table));
        (r.Ok? <==> spec.Ok?) && (spec.Ok? ==> mem.cells == spec.value.0 && table == spec.value.1)
        && (spec.Err? ==> r.panic == spec.panic)
    {
      match m
      case GlobalVar(name, typ) =>
        var cell := Zero(Deref(typ));
        if cell.Err? {
          return Err(cell.panic);
        }
        var p := mem.Alloc(cell.value);
        SetGlobal(name, p.addr);
        r := Ok(());
      case OtherMember(_) =>
        r := Ok(());
    }

    /**
     * initGlobals under its sync.Once: the first call marks the work done
     * (a panicking initialisation counts as done too) and installs a fresh
     * zero cell for every global of every package; later calls change nothing.
     */
    method InitGlobals(pkgs: seq<Package>) returns (r: Result<()>)
      requires Valid()
      modifies this, mem
      ensures Valid() && initDone
      ensures old(initDone) ==> r == Ok(()) && table == old(table) && mem.cells == old(mem.cells)
      ensures !old(initDone) ==>
        var spec := Install(AllMembers(pkgs), old(mem.cells), old(table));
        (r.Ok? <==> spec.Ok?)
        && (spec.Ok? ==> mem.cells == spec.value.0 && table == spec.value.1)
        && (spec.Err? ==> r.panic == spec.panic)
    {
      if initDone {
        return Ok(());
      }
      initDone := true;
      ghost var cells0, table0 := mem.cells, table;
      for i := 0 to |pkgs|
        invariant Valid() && initDone
        invariant Install(AllMembers(pkgs[..i]), cells0, table0) == Ok((mem.cells, table))
      {
        var members := pkgs[i].members;
        assert AllMembers(pkgs[..i + 1]) == AllMembers(pkgs[..i]) + members by {
          assert pkgs[..i + 1][..i] == pkgs[..i];
        }
        assert AllMembers(pkgs[..i]) + members[..0] == AllMembers(pkgs[..i]);
        for j := 0 to |members|
          invariant Valid() && initDone
          invariant Install(AllMembers(pkgs[..i]) + members[..j], cells0, table0) == Ok((mem.cells, table))
        {
          ghost var done := AllMembers(pkgs[..i]) + members[..j];
          assert done + [members[j]] == AllMembers(pkgs[..i]) + members[..j + 1];
          InstallSnoc(done, members[j], cells0, table0);
          var step := InitMember(members[j]);
          if step.Err? {
            PanicEndsInstall(pkgs, i, j, cells0, table0);
            return step;
          }
        }
        assert members[..|members|] == members;
      }
      assert pkgs[..|pkgs|] == pkgs;
      r := Ok(());
    }
  }

  // ------------------------------------------------------------ getValue

  /**
   * getValue: a global with a cell resolves to a pointer to that cell, a
   * constant to its ConstValue, a nil operand to nil, and everything else to
   * its binding in the frame's env; an operand with no binding panics.
   * Functions and builtins are never bound, so using one as a value panics.
   */
  function GetValue(table: map<string, nat>, env: map<nat, Value>, o: Operand): (r: Result<Value>)
    ensures o.Global? && o.name in table ==> r == Ok(PtrV(Ref(table[o.name])))
    ensures o.Const? ==> r == ConstValue(o.c)
    ensures o.NilOperand? ==> r == Ok(Nil)
    ensures !(o.Const? || o.NilOperand? || (o.Global? && o.name in table)) ==>
      r == if o.Reg? && o.id in env then Ok(env[o.id]) else Err(UnboundValue)
  {
    match o
    case Global(name) => if name in table then Ok(PtrV(Ref(table[name]))) else Err(UnboundValue)
    case Const(c) => ConstValue(c)
    case NilOperand => Ok(Nil)
    case Reg(id) => if id in env then Ok(env[id]) else Err(UnboundValue)
    case Fn(_) => Err(UnboundValue)
    case Builtin(_) => Err(UnboundValue)
  }

  /** Resolved values are well formed, and the frame's env is consulted only for registers. */
  lemma GetValueProperties(table: map<string, nat>, env: map<nat, Value>, env': map<nat, Value>, o: Operand, n: nat)
    ensures TableOk(table, n) && EnvOk(env, n) && GetValue(table, env, o).Ok? ==> ValOk(GetValue(table, env, o).value, n)
    ensures !o.Reg? ==> GetValue(table, env, o) == GetValue(table, env', o)
    ensures o.Reg? ==> GetValue(table, env, o) == GetValue(map[], env, o)
  {
  }

  /** prepareCall's loop: the operands' values left to right; the first that fails panics. */
  function GetValues(table: map<string, nat>, env: map<nat, Value>, os: seq<Operand>): (r: Result<seq<Value>>)
    ensures r.Ok? ==> |r.value| == |os| && forall i :: 0 <= i < |os| ==> GetValue(table, env, os[i]) == Ok(r.value[i])
    ensures r.Err? ==> exists i :: (0 <= i < |os| && GetValue(table, env, os[i]) == Err(r.panic)
      && forall j :: 0 <= j < i ==> GetValue(table, env, os[j]).Ok?)
    decreases |os|
  {
    if |os| == 0 then Ok([])
    else
      var init :- GetValues(table, env, os[..|os| - 1]);
      var v :- GetValue(table, env, os[|os| - 1]);
      Ok(init + [v])
  }

  /** Once operand i fails, the operands after it are never evaluated. */
  lemma {:induction false} GetValuesErrSticks(table: map<string, nat>, env: map<nat, Value>, os: seq<Operand>, i: nat)
    requires i < |os| && GetValues(table, env, os[..i]).Ok? && GetValue(table, env, os[i]).Err?
    ensures GetValues(table, env, os) == Err(GetValue(table, env, os[i]).panic)
    decreases |os|
  {
    if |os| == i + 1 {
      assert os[..|os| - 1] == os[..i];
    } else {
      var init := os[..|os| - 1];
      assert init[..i] == os[..i];
      GetValuesErrSticks(table, env, init, i);
    }
  }

  lemma GetValuesOk(table: map<string, nat>, env: map<nat, Value>, os: seq<Operand>, n: nat)
    requires TableOk(table, n) && EnvOk(env, n) && GetValues(table, env, os).Ok?
    ensures forall i :: 0 <= i < |os| ==> ValOk(GetValues(table, env, os).value[i], n)
  {
    forall i | 0 <= i < |os|
      ensures ValOk(GetValues(table, env, os).value[i], n)
    {
      GetValueProperties(table, env, env, os[i], n);
    }
  }

  /** prepareCall's argument loop. */
  method PrepareArgs(table: map<string, nat>, env: map<nat, Value>, os: seq<Operand>) returns (r: Result<seq<Value>>)
    ensures r == GetValues(table, env, os)
  {
    var args := [];
    for i := 0 to |os|
      invariant GetValues(table, env, os[..i]) == Ok(args)
    {
      assert os[..i + 1][..i] == os[..i];
      var v := GetValue(table, env, os[i]);
      if v.Err? {
        GetValuesErrSticks(table, env, os, i);
        return Err(v.panic);
      }
      args := args + [v.value];
    }
    assert os[..|os|] == os;
    r := Ok(args);
  }

  // ------------------------------------------------------------ callBuiltin

  /** callBuiltin: print and println go to Print; any other builtin panics. */
  function CallBuiltin(name: string, args: seq<Value>): (r: Result<(Value, string)>)
    ensures r.Ok? <==> name == "print" || name == "println"
    ensures r.Ok? ==> r.value.0 == Nil && r.value.1 == PrintText(name == "println", args)
    ensures r.Err? ==> r.panic == UnknownBuiltin
  {
    if name == "print" || name == "println" then Ok((Nil, PrintText(name == "println", args)))
    else Err(UnknownBuiltin)
  }

  /** callBuiltin's dispatch, with the text Print writes returned next to its result. */
  method RunBuiltin(name: string, args: seq<Value>) returns (r: Result<(Value, string)>)
    ensures r == CallBuiltin(name, args)
  {
    if name == "print" || name == "println" {
      var text, v := Print(name, args);
      r := Ok((v, text));
    } else {
      r := Err(UnknownBuiltin);
    }
  }
}
