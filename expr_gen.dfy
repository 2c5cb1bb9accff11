/**
 * Quadruple code of expressions: the generateQuad of the operator nodes
 * (src/parse_tree/operator_nodes.h), which only concatenate their operands'
 * code with fixed opcodes, and of FunctionCallNode
 * (src/parse_tree/function_nodes.h), which pushes the arguments from the last
 * to the first. No generation state is read or written, so the code of an
 * expression is a function of the expression alone.
 */
module ExprGen {
  import opened Wrappers
  import opened Consts
  import opened Ast
  import opened Quads

  /**
   * Every call in the expression has no more arguments than its callee has
   * parameters: FunctionCallNode::generateQuad reads func->paramList[i] for
   * every argument i.
   */
  predicate ExprGenerable(e: Expr)
    decreases e
  {
    match e.node
    case Ident(_) => true
    case Literal(_, _) => true
    case AssignOp(_, v) => ExprGenerable(v)
    case BinaryOp(_, l, r) => ExprGenerable(l) && ExprGenerable(r)
    case UnaryOp(_, x) => ExprGenerable(x)
    case Call(_, args, callee) =>
      |args| <= |callee.paramTypes| && forall i :: 0 <= i < |args| ==> ExprGenerable(args[i])
  }

  predicate IsInc(op: Operator) { op == PreInc || op == SufInc }
  predicate IsDec(op: Operator) { op == PreDec || op == SufDec }

  /**
   * The code of an expression, in postfix order. The generateQuad of identifiers
   * and literals is not modelled from code; this model assumes each pushes its
   * value with one PUSH.
   */
  function ExprCode(e: Expr): (r: seq<Quad>)
    requires ExprGenerable(e)
    ensures StraightLine(r)
    decreases e, 1
  {
    match e.node
    case Ident(n) => [Typed(Push, e.ty, Name(n))]
    case Literal(v, _) => [Typed(Push, e.ty, Value(v))]
    case AssignOp(n, v) => ExprCode(v) + [Plain("POP", Name(n))]
    case BinaryOp(op, l, r) => ExprCode(l) + ExprCode(r) + [BinOpr(op)]
    case UnaryOp(op, x) =>
      if op == UMinus then ExprCode(x) + [Plain("NEG", NoOperand)]
      else if IsInc(op) then ExprCode(x) + [Plain("PUSH", Value("1")), Plain("ADD", NoOperand)]
      else if IsDec(op) then ExprCode(x) + [Plain("PUSH", Value("1")), Plain("SUB", NoOperand)]
      else []
    case Call(_, _, callee) => ArgsCode(e, 0) + [Plain("CALL", Name(callee.alias))]
  }

  /** The code of argument i of a call: its value, then its conversion to the type of parameter i. */
  function ArgBlock(e: Expr, i: nat): (r: seq<Quad>)
    requires ExprGenerable(e) && e.node.Call? && i < |e.node.args|
    ensures StraightLine(r)
    decreases e, 0, 0
  {
    var a := e.node.args[i];
    ExprCode(a) + [Conv(a.ty, e.node.resolved.paramTypes[i])]
  }

  /** The code of the arguments from the last one down to argument i. */
  function ArgsCode(e: Expr, i: nat): (r: seq<Quad>)
    requires ExprGenerable(e) && e.node.Call? && i <= |e.node.args|
    ensures StraightLine(r)
    decreases e, 0, |e.node.args| - i + 1
  {
    if i == |e.node.args| then [] else ArgsCode(e, i + 1) + ArgBlock(e, i)
  }

  /** The generateQuad of the operator nodes: operands first, then the operator's instructions. */
  method GenerateExpr(e: Expr) returns (code: seq<Quad>)
    requires ExprGenerable(e)
    ensures code == ExprCode(e)
    decreases e, 1
  {
    match e.node
    case Ident(n) =>
      code := [Typed(Push, e.ty, Name(n))];
    case Literal(v, _) =>
      code := [Typed(Push, e.ty, Value(v))];
    case AssignOp(n, v) =>
      code := GenerateExpr(v);
      code := code + [Plain("POP", Name(n))];
    case BinaryOp(op, l, r) =>
      var lc := GenerateExpr(l);
      var rc := GenerateExpr(r);
      code := lc + rc + [BinOpr(op)];
    case UnaryOp(op, x) =>
      code := [];
      if op == UMinus {
        code := GenerateExpr(x);
        code := code + [Plain("NEG", NoOperand)];
      } else if op == PreInc || op == SufInc {
        code := GenerateExpr(x);
        code := code + [Plain("PUSH", Value("1")), Plain("ADD", NoOperand)];
      } else if op == PreDec || op == SufDec {
        code := GenerateExpr(x);
        code := code + [Plain("PUSH", Value("1")), Plain("SUB", NoOperand)];
      }
    case Call(_, _, _) =>
      code := GenerateCall(e);
  }

  /** FunctionCallNode::generateQuad: the argument loop runs i downward from the last argument. */
  method GenerateCall(e: Expr) returns (code: seq<Quad>)
    requires ExprGenerable(e) && e.node.Call?
    ensures code == ExprCode(e)
    decreases e, 0
  {
    var args := e.node.args;
    code := [];
    var i := |args|;
    while i > 0
      invariant 0 <= i <= |args|
      invariant code == ArgsCode(e, i)
    {
      i := i - 1;
      var a := GenerateExpr(args[i]);
      code := code + a + [Conv(args[i].ty, e.node.resolved.paramTypes[i])];
    }
    code := code + [Plain("CALL", Name(e.node.resolved.alias))];
  }

  // ---------------------------------------------------------------------------
  // Reference definitions
  // ---------------------------------------------------------------------------

  function Concat(bs: seq<seq<Quad>>): seq<Quad>
  {
    if bs == [] then [] else bs[0] + Concat(bs[1..])
  }

  function Reverse<T>(s: seq<T>): (r: seq<T>)
    ensures |r| == |s|
  {
    if s == [] then [] else Reverse(s[1..]) + [s[0]]
  }

  /** The argument blocks of a call, in source order. */
  function Blocks(e: Expr): (bs: seq<seq<Quad>>)
    requires ExprGenerable(e) && e.node.Call?
    ensures |bs| == |e.node.args|
  {
    seq(|e.node.args|, i requires 0 <= i < |e.node.args| => ArgBlock(e, i))
  }

  lemma {:induction false} ConcatSnoc(bs: seq<seq<Quad>>, b: seq<Quad>)
    ensures Concat(bs + [b]) == Concat(bs) + b
  {
    if bs == [] {
      assert bs + [b] == [b];
    } else {
      assert (bs + [b])[0] == bs[0] && (bs + [b])[1..] == bs[1..] + [b];
      ConcatSnoc(bs[1..], b);
    }
  }

  /** The arguments' code is their blocks in reverse source order: the last argument is pushed first. */
  lemma {:induction false} ArgsPushedInReverse(e: Expr, i: nat)
    requires ExprGenerable(e) && e.node.Call? && i <= |e.node.args|
    ensures ArgsCode(e, i) == Concat(Reverse(Blocks(e)[i..]))
    decreases |e.node.args| - i
  {
    var bs := Blocks(e);
    if i == |e.node.args| {
      assert bs[i..] == [];
    } else {
      ArgsPushedInReverse(e, i + 1);
      assert bs[i..][0] == bs[i] && bs[i..][1..] == bs[i + 1..];
      ConcatSnoc(Reverse(bs[i + 1..]), bs[i]);
    }
  }

  /** A call's code: the arguments last to first, each converted to its parameter's type, and then the CALL. */
  lemma CallCode(e: Expr)
    requires ExprGenerable(e) && e.node.Call?
    ensures ExprCode(e) == Concat(Reverse(Blocks(e))) + [Plain("CALL", Name(e.node.resolved.alias))]
    ensures forall i :: 0 <= i < |e.node.args| ==>
      Blocks(e)[i] == ExprCode(e.node.args[i]) + [Conv(e.node.args[i].ty, e.node.resolved.paramTypes[i])]
  {
    ArgsPushedInReverse(e, 0);
    assert Blocks(e)[0..] == Blocks(e);
  }

  // ---------------------------------------------------------------------------
  // The operators' code
  // ---------------------------------------------------------------------------

  /** Assignment: the value's code, then exactly one POP into the target. */
  lemma AssignCode(e: Expr)
    requires ExprGenerable(e) && e.node.AssignOp?
    ensures var r := ExprCode(e); var v := ExprCode(e.node.value);
      |r| == |v| + 1 && r[..|v|] == v && r[|v|] == Plain("POP", Name(e.node.target))
  {
  }

  /** Binary operator: lhs code, rhs code, one operator instruction; the length is additive. */
  lemma BinaryCode(e: Expr)
    requires ExprGenerable(e) && e.node.BinaryOp?
    ensures var r := ExprCode(e); var a := ExprCode(e.node.lhs); var b := ExprCode(e.node.rhs);
      |r| == |a| + |b| + 1 && r[..|a|] == a && r[|a|..|a| + |b|] == b && r[|r| - 1] == BinOpr(e.node.opr)
  {
  }

  /** Unary minus appends NEG; both increments append PUSH 1, ADD; both decrements PUSH 1, SUB; every other unary operator emits nothing at all. */
  lemma UnaryCode(e: Expr)
    requires ExprGenerable(e) && e.node.UnaryOp?
    ensures var r := ExprCode(e); var x := ExprCode(e.node.operand); var op := e.node.opr;
      (op == UMinus ==> r == x + [Plain("NEG", NoOperand)])
      && (IsInc(op) ==> r == x + [Plain("PUSH", Value("1")), Plain("ADD", NoOperand)])
      && (IsDec(op) ==> r == x + [Plain("PUSH", Value("1")), Plain("SUB", NoOperand)])
      && (op !in {UMinus, PreInc, SufInc, PreDec, SufDec} ==> r == [])
  {
  }
}
