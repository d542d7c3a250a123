/**
 * The ANTLR calculator of appendix/b-antlr4: an int stack, a listener whose
 * exit callbacks evaluate a parse tree through the stack as the tree walker
 * leaves each node, and a visitor that does the same by recursive descent.
 * The parse tree of the Calc grammar is a datatype; a binary node keeps the
 * token type of its operator.
 *
 * Go's int is 64 bits: + - * wrap, / truncates toward zero, the most negative
 * value divided by -1 is itself, and a zero divisor panics. A pop of an empty
 * stack panics. A panic ends the evaluation; the methods report it as Err and
 * the stack as it was when the panic happened.
 */
module Calc {
  import opened Results
  import opened MachineInt
  import opened Decimal

  // The token types of the Calc grammar.
  const MUL: int := 1
  const DIV: int := 2
  const ADD: int := 3
  const SUB: int := 4

  /** The expression alternatives: #Number, #MulDiv and #AddSub. */
  datatype Expr =
    | Number(text: string)
    | MulDiv(op: int, left: Expr, right: Expr)
    | AddSub(op: int, left: Expr, right: Expr)

  /** The start rule: one expression. */
  datatype Start = Start(expression: Expr)

  datatype Kind = MulDivKind | AddSubKind

  // ------------------------------------------------------------ the stack

  /** pop on a value: the stack without its top and the top, or a panic on an empty stack. */
  function PopOf(s: seq<int>): (r: (seq<int>, Result<int>))
    ensures |s| == 0 ==> r == (s, Err(EmptyStack))
    ensures |s| > 0 ==> r.1 == Ok(s[|s| - 1]) && r.0 + [s[|s| - 1]] == s
  {
    if |s| < 1 then (s, Err(EmptyStack)) else (s[..|s| - 1], Ok(s[|s| - 1]))
  }

  /** The Stack struct: a slice that grows and shrinks at its end. */
  class Stack {
    var stk: seq<int>

    constructor()
      ensures stk == []
    {
      stk := [];
    }

    method Push(i: int)
      modifies this
      ensures stk == old(stk) + [i]
    {
      stk := stk + [i];
    }

    method Pop() returns (r: Result<int>)
      modifies this
      ensures (stk, r) == PopOf(old(stk))
    {
      if |stk| < 1 {
        return Err(EmptyStack);
      }
      r := Ok(stk[|stk| - 1]);
      stk := stk[..|stk| - 1];
    }
  }

  /** push followed by pop returns the pushed value and restores the stack. */
  lemma PushPop(s: seq<int>, i: int)
    ensures PopOf(s + [i]) == (s, Ok(i))
  {
  }

  /** pop takes the most recently pushed value and leaves the rest untouched. */
  lemma PopIsLifo(s: seq<int>, pushed: seq<int>)
    requires |pushed| > 0
    ensures PopOf(s + pushed) == (s + pushed[..|pushed| - 1], Ok(pushed[|pushed| - 1]))
  {
    assert (s + pushed)[..|s + pushed| - 1] == s + pushed[..|pushed| - 1];
  }

  // ------------------------------------------------------------ one binary node

  /**
   * The switch on the operator's token type: the value pushed (None for an
   * operator the switch has no case for), or the panic of a zero divisor.
   */
  function Combine(kind: Kind, op: int, left: int, right: int): (r: Result<Option<int>>)
    ensures r.Err? <==> kind == MulDivKind && op == DIV && right == 0
    ensures r.Err? ==> r.panic == DivisionByZero
    ensures r.Ok? && r.value.Some? ==> InRange(Int64, r.value.value)
    ensures r == Ok(None) <==> !Known(kind, op)
  {
    match kind
    case MulDivKind =>
      if op == MUL then Ok(Some(Wrap(Int64, left * right)))
      else if op == DIV then (if right == 0 then Err(DivisionByZero) else Ok(Some(Wrap(Int64, Quot(left, right)))))
      else Ok(None)
    case AddSubKind =>
      if op == ADD then Ok(Some(Wrap(Int64, left + right)))
      else if op == SUB then Ok(Some(Wrap(Int64, left - right)))
      else Ok(None)
  }

  /** An operator token the node's switch has a case for. */
  predicate Known(kind: Kind, op: int) {
    if kind == MulDivKind then op == MUL || op == DIV else op == ADD || op == SUB
  }

  /** On 64-bit operands + - * are exact whenever the exact result fits in 64 bits. */
  lemma CombineIsExact(left: int, right: int)
    requires InRange(Int64, left) && InRange(Int64, right)
    ensures InRange(Int64, left + right) ==> Combine(AddSubKind, ADD, left, right) == Ok(Some(left + right))
    ensures InRange(Int64, left - right) ==> Combine(AddSubKind, SUB, left, right) == Ok(Some(left - right))
    ensures InRange(Int64, left * right) ==> Combine(MulDivKind, MUL, left, right) == Ok(Some(left * right))
  {
    if InRange(Int64, left + right) {
      WrapInRange(Int64, left + right);
    }
    if InRange(Int64, left - right) {
      WrapInRange(Int64, left - right);
    }
    if InRange(Int64, left * right) {
      WrapInRange(Int64, left * right);
    }
  }

  /**
   * Go's / on 64-bit operands truncates toward zero, and only the most
   * negative value divided by -1 overflows, to itself.
   */
  lemma CombineDivision(left: int, right: int)
    requires InRange(Int64, left) && InRange(Int64, right) && right != 0
    ensures !(left == MinOf(Int64) && right == -1) ==> Combine(MulDivKind, DIV, left, right) == Ok(Some(Quot(left, right)))
    ensures left == MinOf(Int64) && right == -1 ==> Combine(MulDivKind, DIV, left, right) == Ok(Some(MinOf(Int64)))
  {
    if !(left == MinOf(Int64) && right == -1) {
      QuotInRange(left, right);
      WrapInRange(Int64, Quot(left, right));
    } else {
      assert Quot(left, right) == -left;
      NegateMin(Int64);
    }
  }

  /** Go's / truncates: -7 / 2 is -3, and 7 / -2 is -3. */
  lemma DivTruncates()
    ensures Combine(MulDivKind, DIV, -7, 2) == Ok(Some(-3))
    ensures Combine(MulDivKind, DIV, 7, -2) == Ok(Some(-3))
  {
    CombineDivision(-7, 2);
    CombineDivision(7, -2);
  }

  /**
   * What an exit of a binary node does to the stack: pop right, then pop
   * left, then push the combined value if the switch has a case for the
   * operator.
   */
  function ReduceOf(kind: Kind, op: int, s: seq<int>): (seq<int>, Result<()>) {
    var (s1, right) := PopOf(s);
    if right.Err? then (s1, Err(right.panic))
    else
      var (s2, left) := PopOf(s1);
      if left.Err? then (s2, Err(left.panic))
      else
        match Combine(kind, op, left.value, right.value)
        case Err(p) => (s2, Err(p))
        case Ok(None) => (s2, Ok(()))
        case Ok(Some(v)) => (s2 + [v], Ok(()))
  }

  /**
   * The deeper of the top two values is the left operand; the values below
   * them are untouched; a known operator leaves one value less, an unknown one
   * two less; and a stack of fewer than two values panics.
   */
  lemma ReduceOperands(kind: Kind, op: int, s: seq<int>)
    ensures |s| < 2 ==> ReduceOf(kind, op, s).1 == Err(EmptyStack)
    ensures |s| >= 2 ==>
      var rest, left, right := s[..|s| - 2], s[|s| - 2], s[|s| - 1];
      var c := Combine(kind, op, left, right);
      ReduceOf(kind, op, s) == (match c
        case Err(p) => (rest, Err(p))
        case Ok(None) => (rest, Ok(()))
        case Ok(Some(v)) => (rest + [v], Ok(())))
  {
    if |s| >= 2 {
      assert s[..|s| - 1][..|s| - 2] == s[..|s| - 2];
    }
  }

  lemma ReduceDepth(kind: Kind, op: int, s: seq<int>)
    requires ReduceOf(kind, op, s).1.Ok?
    ensures var s1 := ReduceOf(kind, op, s).0;
      |s| >= 2 && s1[..|s| - 2] == s[..|s| - 2]
      && (Known(kind, op) ==> |s1| == |s| - 1 && s1[|s1| - 1] == Combine(kind, op, s[|s| - 2], s[|s| - 1]).value.value)
      && (!Known(kind, op) ==> s1 == s[..|s| - 2])
  {
    ReduceOperands(kind, op, s);
  }

  // ------------------------------------------------------------ a whole tree

  function KindOf(e: Expr): Kind
    requires !e.Number?
  {
    if e.MulDiv? then MulDivKind else AddSubKind
  }

  /**
   * Evaluating a tree through the stack: a number pushes strconv.Atoi of its
   * text (0 or the clamped value when that returns an error); a binary node
   * evaluates its left operand, then its right one, then reduces. Both the
   * listener's postorder exits and the visitor's descent do this.
   */
  function EvalOn(e: Expr, s: seq<int>): (r: (seq<int>, Result<()>))
    decreases e
  {
    match e
    case Number(text) => (s + [Atoi(text)], Ok(()))
    case _ =>
      var a := EvalOn(e.left, s);
      if a.1.Err? then a
      else
        var b := EvalOn(e.right, a.0);
        if b.1.Err? then b else ReduceOf(KindOf(e), e.op, b.0)
  }

  /** A tree whose every operator has a case in its node's switch, as the grammar produces. */
  predicate WellFormed(e: Expr) {
    match e
    case Number(_) => true
    case MulDiv(op, l, r) => (op == MUL || op == DIV) && WellFormed(l) && WellFormed(r)
    case AddSub(op, l, r) => (op == ADD || op == SUB) && WellFormed(l) && WellFormed(r)
  }

  /** The value of a well-formed tree in Go's int arithmetic, or the division by zero it meets first. */
  function Value(e: Expr): (r: Result<int>)
    requires WellFormed(e)
    ensures r.Ok? ==> InRange(Int64, r.value)
    ensures r.Err? ==> r.panic == DivisionByZero
  {
    match e
    case Number(text) => Ok(Atoi(text))
    case _ =>
      var x := Value(e.left);
      var y := Value(e.right);
      if x.Err? then x
      else if y.Err? then y
      else
        match Combine(KindOf(e), e.op, x.value, y.value)
        case Err(p) => Err(p)
        case Ok(c) => Ok(c.value)
  }

  /**
   * Evaluating a well-formed tree leaves exactly one more value on the stack,
   * its value, and nothing below it changes; it panics exactly when the value
   * meets a zero divisor, and never pops an empty stack.
   */
  lemma {:induction false} EvalOnComputesValue(e: Expr, s: seq<int>)
    requires WellFormed(e)
    ensures var w := EvalOn(e, s);
      (w.1.Ok? <==> Value(e).Ok?)
      && (Value(e).Ok? ==> w.0 == s + [Value(e).value])
      && (Value(e).Err? ==> w.1 == Err(DivisionByZero))
    decreases e
  {
    match e
    case Number(_) =>
    case _ =>
      EvalOnComputesValue(e.left, s);
      var a := EvalOn(e.left, s);
      if a.1.Ok? {
        EvalOnComputesValue(e.right, a.0);
        var b := EvalOn(e.right, a.0);
        if b.1.Ok? {
          ReduceOperands(KindOf(e), e.op, b.0);
          assert b.0[..|b.0| - 2] == s;
        }
      }
  }

  /**
   * A node whose operator the switch does not know consumes both operand
   * values and pushes nothing: the stack is as before the node.
   */
  lemma UnknownOperatorDropsOperands(e: Expr, s: seq<int>)
    requires !e.Number? && !Known(KindOf(e), e.op)
    requires WellFormed(e.left) && WellFormed(e.right) && Value(e.left).Ok? && Value(e.right).Ok?
    ensures EvalOn(e, s) == (s, Ok(()))
  {
    EvalOnComputesValue(e.left, s);
    var a := EvalOn(e.left, s);
    EvalOnComputesValue(e.right, a.0);
    var b := EvalOn(e.right, a.0);
    ReduceOperands(KindOf(e), e.op, b.0);
    assert b.0[..|b.0| - 2] == s;
  }

  /** The tree of "2+2*5": the grammar puts * below +, and the result is 12. */
  lemma TwoPlusTwoTimesFive()
    ensures var e := AddSub(ADD, Number("2"), MulDiv(MUL, Number("2"), Number("5")));
      WellFormed(e) && Value(e) == Ok(12) && EvalOn(e, []) == ([12], Ok(()))
  {
    var e := AddSub(ADD, Number("2"), MulDiv(MUL, Number("2"), Number("5")));
    AtoiDigit("2", 2);
    AtoiDigit("5", 5);
    WrapInRange(Int64, 10);
    WrapInRange(Int64, 12);
    assert Value(e.right) == Ok(10);
    assert Value(e) == Ok(12);
    EvalOnComputesValue(e, []);
    assert [] + [12] == [12];
  }

  /** Atoi of a one-digit text. */
  lemma AtoiDigit(t: string, d: int)
    requires 0 <= d < 10 && t == [DigitChar(d)]
    ensures Atoi(t) == d
  {
    AtoiRoundTrip(d);
    assert IntToString(d) == NatToString(d);
  }

  // ------------------------------------------------------------ the listener

  /**
   * calcListener: the exit callbacks the tree walker calls, in postorder, on
   * the nodes of the tree; the Go struct embeds the Stack.
   */
  class Listener {
    const stack: Stack

    constructor()
      ensures fresh(stack) && stack.stk == []
    {
      stack := new Stack();
    }

    /** ExitNumber: push the number's text as an int. */
    method ExitNumber(text: string)
      modifies stack
      ensures stack.stk == old(stack.stk) + [Atoi(text)]
    {
      var i := Atoi(text);
      stack.Push(i);
    }

    /** ExitMulDiv: pop right, then left, and push left*right or left/right. */
    method ExitMulDiv(op: int) returns (r: Result<()>)
      modifies stack
      ensures (stack.stk, r) == ReduceOf(MulDivKind, op, old(stack.stk))
    {
      var right :- stack.Pop();
      var left :- stack.Pop();
      if op == MUL {
        stack.Push(Wrap(Int64, left * right));
      } else if op == DIV {
        if right == 0 {
          return Err(DivisionByZero);
        }
        stack.Push(Wrap(Int64, Quot(left, right)));
      }
      r := Ok(());
    }

    /** ExitAddSub: pop right, then left, and push left+right or left-right. */
    method ExitAddSub(op: int) returns (r: Result<()>)
      modifies stack
      ensures (stack.stk, r) == ReduceOf(AddSubKind, op, old(stack.stk))
    {
      var right :- stack.Pop();
      var left :- stack.Pop();
      if op == ADD {
        stack.Push(Wrap(Int64, left + right));
      } else if op == SUB {
        stack.Push(Wrap(Int64, left - right));
      }
      r := Ok(());
    }

    /** The tree walker: the exit of every node after the exits of its children, left before right. */
    method Walk(e: Expr) returns (r: Result<()>)
      modifies stack
      ensures (stack.stk, r) == EvalOn(e, old(stack.stk))
      decreases e
    {
      match e
      case Number(text) =>
        ExitNumber(text);
        r := Ok(());
      case MulDiv(op, left, right) =>
        r := Walk(left);
        if r.Err? {
          return;
        }
        r := Walk(right);
        if r.Err? {
          return;
        }
        r := ExitMulDiv(op);
      case AddSub(op, left, right) =>
        r := Walk(left);
        if r.Err? {
          return;
        }
        r := Walk(right);
        if r.Err? {
          return;
        }
        r := ExitAddSub(op);
    }

    /** Walking the start rule walks its expression; the base listener's ExitStart does nothing. */
    method WalkStart(s: Start) returns (r: Result<()>)
      modifies stack
      ensures (stack.stk, r) == EvalOn(s.expression, old(stack.stk))
    {
      r := Walk(s.expression);
    }
  }

  // ------------------------------------------------------------ the visitor

  /** calcVisitor: each Visit method evaluates its node through the embedded Stack. */
  class Visitor {
    const stack: Stack

    constructor()
      ensures fresh(stack) && stack.stk == []
    {
      stack := new Stack();
    }

    /** visitRule: node.Accept(v) calls the Visit method of the node's alternative. */
    method VisitRule(e: Expr) returns (r: Result<()>)
      modifies stack
      ensures (stack.stk, r) == EvalOn(e, old(stack.stk))
      decreases e, 1
    {
      match e
      case Number(text) =>
        VisitNumber(text);
        r := Ok(());
      case MulDiv(op, left, right) =>
        r := VisitMulDiv(op, left, right);
      case AddSub(op, left, right) =>
        r := VisitAddSub(op, left, right);
    }

    method VisitStart(s: Start) returns (r: Result<()>)
      modifies stack
      ensures (stack.stk, r) == EvalOn(s.expression, old(stack.stk))
    {
      r := VisitRule(s.expression);
    }

    method VisitNumber(text: string)
      modifies stack
      ensures stack.stk == old(stack.stk) + [Atoi(text)]
    {
      var i := Atoi(text);
      stack.Push(i);
    }

    /** Visit the left operand, then the right one, then pop right and left and push left*right or left/right. */
    method VisitMulDiv(op: int, left: Expr, right: Expr) returns (r: Result<()>)
      modifies stack
      ensures (stack.stk, r) == EvalOn(MulDiv(op, left, right), old(stack.stk))
      decreases MulDiv(op, left, right), 0
    {
      r := VisitRule(left);
      if r.Err? {
        return;
      }
      r := VisitRule(right);
      if r.Err? {
        return;
      }
      r := PopMulDiv(op);
    }

    /** Visit the left operand, then the right one, then pop right and left and push left+right or left-right. */
    method VisitAddSub(op: int, left: Expr, right: Expr) returns (r: Result<()>)
      modifies stack
      ensures (stack.stk, r) == EvalOn(AddSub(op, left, right), old(stack.stk))
      decreases AddSub(op, left, right), 0
    {
      r := VisitRule(left);
      if r.Err? {
        return;
      }
      r := VisitRule(right);
      if r.Err? {
        return;
      }
      r := PopAddSub(op);
    }

    /** The second half of VisitMulDiv: the two pops and the switch on the operator. */
    method PopMulDiv(op: int) returns (r: Result<()>)
      modifies stack
      ensures (stack.stk, r) == ReduceOf(MulDivKind, op, old(stack.stk))
    {
      var y :- stack.Pop();
      var x :- stack.Pop();
      if op == MUL {
        stack.Push(Wrap(Int64, x * y));
      } else if op == DIV {
        if y == 0 {
          return Err(DivisionByZero);
        }
        stack.Push(Wrap(Int64, Quot(x, y)));
      }
      r := Ok(());
    }

    /** The second half of VisitAddSub. */
    method PopAddSub(op: int) returns (r: Result<()>)
      modifies stack
      ensures (stack.stk, r) == ReduceOf(AddSubKind, op, old(stack.stk))
    {
      var y :- stack.Pop();
      var x :- stack.Pop();
      if op == ADD {
        stack.Push(Wrap(Int64, x + y));
      } else if op == SUB {
        stack.Push(Wrap(Int64, x - y));
      }
      r := Ok(());
    }
  }
}
