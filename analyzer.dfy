/**
 * The `analyze` methods of the parse-tree nodes, written as the nodes write
 * them: they mutate the one ScopeContext object step by step. Each method is
 * proved to leave the context, and to return, exactly what the matching
 * function of module Analysis computes from the context it started with.
 */
module Analyzer {
  import opened Wrappers
  import opened Consts
  import opened Utils
  import opened Ast
  import opened ScopeCtx
  import A = Analysis

  /** The FunctionNode constructor: copies each parameter's variable into func.paramList. */
  method BuildFunc(ret: DataType, name: string, ps: seq<VarDecl>) returns (f: Symbol)
    ensures f == A.FuncSymbolOf(ret, name, ps)
  {
    var vars: seq<Var> := [];
    var i := 0;
    while i < |ps|
      invariant 0 <= i <= |ps|
      invariant vars == A.ParamVars(ps[..i])
    {
      vars := vars + [Var(ps[i].dtype, ps[i].name, ps[i].isConst)];
      i := i + 1;
    }
    assert ps[..i] == ps;
    f := FuncSym(ret, vars, name, false);
  }

  method AnalyzeIdent(name: string, ctx: ScopeContext) returns (ok: bool, dtype: DataType, constant: bool)
    modifies ctx
    ensures A.ExprOutcome(ok, dtype, constant, ctx.Snapshot()) == A.AnalyzeIdent(name, old(ctx.Snapshot()))
  {
    var sym := ctx.GetSymbol(name);
    match sym
    case None =>
      ctx.PrintError(NotDeclared(name));
      ok, dtype, constant := false, ErrorType, false;
    case Some(VarSym(t, c)) =>
      ok, dtype, constant := true, t, c;
    case Some(FuncSym(_, _, _, _)) =>
      ok, dtype, constant := true, FuncPtr, false;
  }

  method AnalyzeExpr(e: Expr, ctx: ScopeContext) returns (ok: bool, dtype: DataType, constant: bool)
    modifies ctx
    ensures A.ExprOutcome(ok, dtype, constant, ctx.Snapshot()) == A.AnalyzeExpr(e, old(ctx.Snapshot()))
    decreases e, 2, 0
  {
    match e.node
    case Ident(n) =>
      ok, dtype, constant := AnalyzeIdent(n, ctx);
    case Literal(_, t) =>
      ok, dtype, constant := true, t, true;
    case AssignOp(n, v) =>
      var lhsOk, lhsType, _ := AnalyzeIdent(n, ctx);
      var rhsOk, _, _ := AnalyzeExpr(v, ctx);
      var err := if lhsOk then A.WriteError(ctx.GetSymbol(n), n) else None;
      if err.Some? {
        ctx.PrintError(err.value);
      }
      ok, dtype, constant := lhsOk && rhsOk && err.None?, lhsType, false;
    case BinaryOp(_, l, r) =>
      var lOk, lType, lConst := AnalyzeExpr(l, ctx);
      var rOk, rType, rConst := AnalyzeExpr(r, ctx);
      ok := lOk && rOk;
      if lType == Void || rType == Void {
        ctx.PrintError(VoidOperand);
        ok := false;
      }
      dtype, constant := Wider(lType, rType), lConst && rConst;
    case UnaryOp(op, x) =>
      var xOk, xType, xConst := AnalyzeExpr(x, ctx);
      ok := xOk;
      if xType == Void {
        ctx.PrintError(VoidOperand);
        ok := false;
      }
      if A.IsIncDec(op) && xOk {
        var err := if x.node.Ident? then A.WriteError(ctx.GetSymbol(x.node.name), x.node.name) else Some(LvalueRequired);
        if err.Some? {
          ctx.PrintError(err.value);
          ok := false;
        }
      }
      dtype, constant := xType, xConst && !A.IsIncDec(op);
    case Call(_, _, _) =>
      ok, dtype, constant := AnalyzeCall(e, ctx);
  }

  /** FunctionCallNode::analyze, with its argument loop. */
  method AnalyzeCall(e: Expr, ctx: ScopeContext) returns (ok: bool, dtype: DataType, constant: bool)
    requires e.node.Call?
    modifies ctx
    ensures A.ExprOutcome(ok, dtype, constant, ctx.Snapshot()) == A.AnalyzeCall(e, old(ctx.Snapshot()))
    decreases e, 1, 0
  {
    var name := e.node.callee;
    var args := e.node.args;
    var sym := ctx.GetSymbol(name);
    var head := A.CalleeError(sym, name, |args|);
    if head.Some? {
      ctx.PrintError(head.value);
    }
    dtype := if head.None? then sym.value.dtype else ErrorType;
    constant := false;
    var isFunc := sym.Some? && sym.value.FuncSym?;
    var ret := head.None?;
    ghost var start := ctx.Snapshot();
    var i := 0;
    while i < |args|
      invariant 0 <= i <= |args|
      invariant A.ArgsLoop(e, i, isFunc, ret, ctx.Snapshot()) == A.ArgsLoop(e, 0, isFunc, head.None?, start)
      decreases |args| - i
    {
      var argOk, argType, _ := AnalyzeExpr(args[i], ctx);
      if !argOk {
        ret := false;
        i := i + 1;
        continue;
      }
      if (isFunc && argType == Void) || argType == FuncPtr {
        ctx.PrintError(InvalidConversion);
        ok := false;
        return;
      }
      i := i + 1;
    }
    if ret {
      ctx.MarkUsed(name);
    }
    ok := ret;
  }

  /** VarDeclarationNode::analyze. */
  method AnalyzeVarDecl(d: VarDecl, ctx: ScopeContext) returns (ok: bool)
    modifies ctx
    ensures A.Outcome(ok, ctx.Snapshot()) == A.AnalyzeVarDecl(d, old(ctx.Snapshot()))
  {
    ghost var st := ctx.Snapshot();
    ok := true;
    if d.dtype == Void {
      ctx.PrintError(DeclaredVoid(d.name));
      ok := false;
    } else {
      var declared := ctx.DeclareSymbol(d.name, VarSym(d.dtype, d.isConst));
      if !declared {
        ctx.PrintError(VariableRedeclared(d.name));
        ok := false;
      }
    }
    ghost var o1 := A.Outcome(ok, ctx.Snapshot());
    assert o1 == A.DeclareVar(d, st);
    if d.value.Some? {
      ctx.initializeVar := true;
      var v, _, _ := AnalyzeExpr(d.value.value, ctx);
      ok := ok && v;
      ctx.initializeVar := false;
    }
    ghost var o2 := A.Outcome(ok, ctx.Snapshot());
    assert o2 == A.InitializeVar(d, o1);
    if ctx.declareFuncParams && d.value.Some? {
      ctx.PrintError(DefaultParameter);
      ok := false;
    } else if d.isConst && d.value.None? && !ctx.declareFuncParams {
      ctx.PrintError(UninitializedConst(d.name));
      ok := false;
    }
    assert A.Outcome(ok, ctx.Snapshot()) == A.CheckDeclFlags(d, o2);
    var k := ctx.GetSwitchScope();
    if k.Some? && d.value.Some? {
      var sw := ctx.layers[k.value].switchState;
      ctx.SetSwitchState(k.value, sw.(initializedVars := sw.initializedVars + [d]));
    }
  }

  /** The parameter loop of FunctionNode::analyze. */
  method AnalyzeParams(ps: seq<VarDecl>, ctx: ScopeContext) returns (ok: bool)
    modifies ctx
    ensures A.Outcome(ok, ctx.Snapshot()) == A.AnalyzeParams(ps, old(ctx.Snapshot()))
  {
    ok := true;
    var i := 0;
    while i < |ps|
      invariant 0 <= i <= |ps|
      invariant A.Outcome(ok && A.AnalyzeParams(ps[i..], ctx.Snapshot()).ok, A.AnalyzeParams(ps[i..], ctx.Snapshot()).st)
                == A.AnalyzeParams(ps, old(ctx.Snapshot()))
    {
      assert ps[i..][0] == ps[i] && ps[i..][1..] == ps[i + 1..];
      var p := AnalyzeVarDecl(ps[i], ctx);
      ok := ok && p;
      i := i + 1;
    }
  }

  /** BlockNode::analyze. */
  method AnalyzeBlock(ss: seq<Stmt>, ctx: ScopeContext) returns (ok: bool)
    modifies ctx
    ensures A.Outcome(ok, ctx.Snapshot()) == A.AnalyzeBlock(ss, old(ctx.Snapshot()))
    decreases ss, 1
  {
    if ctx.IsGlobalScope() {
      ctx.PrintError(NotAllowedInGlobal(BlockConstruct));
      return false;
    }
    ctx.AddScope(BlockScope);
    ghost var start := ctx.Snapshot();
    ok := true;
    var i := 0;
    while i < |ss|
      invariant 0 <= i <= |ss|
      invariant A.Outcome(ok && A.AnalyzeSeq(ss[i..], ctx.Snapshot()).ok, A.AnalyzeSeq(ss[i..], ctx.Snapshot()).st)
                == A.AnalyzeSeq(ss, start)
    {
      assert ss[i..][0] == ss[i] && ss[i..][1..] == ss[i + 1..];
      var r := AnalyzeStmt(ss[i], ctx);
      ok := ok && r;
      i := i + 1;
    }
    ctx.PopScope();
  }

  method AnalyzeStmt(s: Stmt, ctx: ScopeContext) returns (ok: bool)
    modifies ctx
    ensures A.Outcome(ok, ctx.Snapshot()) == A.AnalyzeStmt(s, old(ctx.Snapshot()))
    decreases s, 2
  {
    match s
    case Block(ss) =>
      ok := AnalyzeBlock(ss, ctx);
    case Decl(d) =>
      ok := AnalyzeVarDecl(d, ctx);
    case If(_, _, _) =>
      ok := AnalyzeIf(s, ctx);
    case While(_, _) =>
      ok := AnalyzeLoop(s, ctx);
    case DoWhile(_, _) =>
      ok := AnalyzeLoop(s, ctx);
    case For(_, _, _, _) =>
      ok := AnalyzeFor(s, ctx);
    case Switch(_, _) =>
      ok := AnalyzeSwitch(s, ctx);
    case CaseLabel(_, _) =>
      ok := AnalyzeCase(s, ctx);
    case Break =>
      ok := true;
      if !ctx.HasBreakScope() {
        ctx.PrintError(BreakNotWithinLoopOrSwitch);
        ok := false;
      }
    case Continue =>
      ok := true;
      if !ctx.HasLoopScope() {
        ctx.PrintError(ContinueNotWithinLoop);
        ok := false;
      }
    case FunctionDef(_, _, _, _) =>
      ok := AnalyzeFunction(s, ctx);
    case ErrorStmt =>
      ctx.PrintError(SyntaxError);
      ok := false;
    case ExprStmt(e) =>
      if ctx.IsGlobalScope() && !ctx.initializeVar {
        ctx.PrintError(NotAllowedInGlobal(ExpressionConstruct));
        ok := false;
      } else {
        var ty, isConst;
        ok, ty, isConst := AnalyzeExpr(e, ctx);
      }
  }

  /** IfNode::analyze. */
  method AnalyzeIf(s: Stmt, ctx: ScopeContext) returns (ok: bool)
    requires s.If?
    modifies ctx
    ensures A.Outcome(ok, ctx.Snapshot()) == A.AnalyzeIf(s, old(ctx.Snapshot()))
    decreases s, 1
  {
    if ctx.IsGlobalScope() {
      ctx.PrintError(NotAllowedInGlobal(IfConstruct));
      return false;
    }
    ctx.AddScope(IfScope);
    var c, _, _ := AnalyzeExpr(s.cond, ctx);
    ok := c;
    var t := AnalyzeStmt(s.thenBody, ctx);
    ok := ok && t;
    if s.elseBody.Some? {
      var el := AnalyzeStmt(s.elseBody.value, ctx);
      ok := ok && el;
    }
    ctx.PopScope();
  }

  /** WhileNode::analyze and DoWhileNode::analyze. */
  method AnalyzeLoop(s: Stmt, ctx: ScopeContext) returns (ok: bool)
    requires s.While? || s.DoWhile?
    modifies ctx
    ensures A.Outcome(ok, ctx.Snapshot()) == A.AnalyzeLoop(s, old(ctx.Snapshot()))
    decreases s, 1
  {
    if ctx.IsGlobalScope() {
      ctx.PrintError(NotAllowedInGlobal(if s.While? then WhileConstruct else DoWhileConstruct));
      return false;
    }
    ctx.AddScope(LoopScope);
    var c, _, _ := AnalyzeExpr(s.cond, ctx);
    ok := c;
    var b := AnalyzeStmt(s.body, ctx);
    ok := ok && b;
    ctx.PopScope();
  }

  /** ForNode::analyze: each of the three heads only when present. */
  method AnalyzeFor(s: Stmt, ctx: ScopeContext) returns (ok: bool)
    requires s.For?
    modifies ctx
    ensures A.Outcome(ok, ctx.Snapshot()) == A.AnalyzeFor(s, old(ctx.Snapshot()))
    decreases s, 1
  {
    if ctx.IsGlobalScope() {
      ctx.PrintError(NotAllowedInGlobal(ForConstruct));
      return false;
    }
    ctx.AddScope(LoopScope);
    ok := true;
    if s.init.Some? {
      var i := AnalyzeStmt(s.init.value, ctx);
      ok := ok && i;
    }
    if s.forCond.Some? {
      var c, _, _ := AnalyzeExpr(s.forCond.value, ctx);
      ok := ok && c;
    }
    if s.inc.Some? {
      var n, _, _ := AnalyzeExpr(s.inc.value, ctx);
      ok := ok && n;
    }
    var b := AnalyzeStmt(s.body, ctx);
    ok := ok && b;
    ctx.PopScope();
  }

  /** SwitchNode::analyze. */
  method AnalyzeSwitch(s: Stmt, ctx: ScopeContext) returns (ok: bool)
    requires s.Switch?
    modifies ctx
    ensures A.Outcome(ok, ctx.Snapshot()) == A.AnalyzeSwitch(s, old(ctx.Snapshot()))
    decreases s, 1
  {
    if ctx.IsGlobalScope() {
      ctx.PrintError(NotAllowedInGlobal(SwitchConstruct));
      return false;
    }
    ctx.AddScope(SwitchScope);
    var c, t, _ := AnalyzeExpr(s.cond, ctx);
    ok := c;
    if !IsIntegerType(t) {
      ctx.PrintError(SwitchQuantityNotInteger);
      ok := false;
    }
    var b := AnalyzeStmt(s.body, ctx);
    ok := ok && b;
    ctx.PopScope();
  }

  /** CaseLabelNode::analyze: writes the enclosing switch's state through the reference getSwitchScope returns. */
  method AnalyzeCase(s: Stmt, ctx: ScopeContext) returns (ok: bool)
    requires s.CaseLabel?
    modifies ctx
    ensures A.Outcome(ok, ctx.Snapshot()) == A.AnalyzeCase(s, old(ctx.Snapshot()))
    decreases s, 1
  {
    var k := ctx.GetSwitchScope();
    if k.None? {
      ctx.PrintError(CaseNotWithinSwitch);
      return false;
    }
    var idx := k.value;
    var sw := ctx.layers[idx].switchState;
    var counted := sw.(caseLabelCnt := sw.caseLabelCnt + 1);
    ctx.SetSwitchState(idx, counted);
    if s.value.Some? {
      ok := AnalyzeCaseValue(s, ctx);
    } else {
      ok := AnalyzeDefault(s, ctx, idx, counted);
    }
  }

  method AnalyzeCaseValue(s: Stmt, ctx: ScopeContext) returns (ok: bool)
    requires s.CaseLabel? && s.value.Some?
    modifies ctx
    ensures A.Outcome(ok, ctx.Snapshot()) == A.AnalyzeCaseValue(s, old(ctx.Snapshot()))
    decreases s, 0
  {
    var t: DataType, constant: bool;
    ok, t, constant := AnalyzeExpr(s.value.value, ctx);
    ghost var analyzed, mid := ok, ctx.Snapshot();
    if ok && !constant {
      ctx.PrintError(ConstantExpressionRequired);
      ok := false;
    }
    if ok && !IsIntegerType(t) {
      ctx.PrintError(CaseQuantityNotInteger);
      ok := false;
    }
    assert ctx.Snapshot() == mid.(errors := mid.errors + A.CaseValueErrors(analyzed, constant, t));
    assert ok == (analyzed && A.CaseValueErrors(analyzed, constant, t) == []);
    var b := AnalyzeStmt(s.body, ctx);
    ok := ok && b;
  }

  /** The default branch; sw is the switch state as read at this point. */
  method AnalyzeDefault(s: Stmt, ctx: ScopeContext, k: nat, sw: SwitchState) returns (ok: bool)
    requires s.CaseLabel? && s.value.None?
    modifies ctx
    ensures A.Outcome(ok, ctx.Snapshot()) == A.AnalyzeDefault(s, old(ctx.Snapshot()), k, sw)
    decreases s, 0
  {
    ok := true;
    if sw.hasDefaultLabel {
      ctx.PrintError(MultipleDefaultLabels);
      ok := false;
    }
    ctx.SetSwitchState(k, sw.(hasDefaultLabel := true));
    var b := AnalyzeStmt(s.body, ctx);
    ok := ok && b;
  }

  /** FunctionNode::analyze. */
  method AnalyzeFunction(s: Stmt, ctx: ScopeContext) returns (ok: bool)
    requires s.FunctionDef?
    modifies ctx
    ensures A.Outcome(ok, ctx.Snapshot()) == A.AnalyzeFunction(s, old(ctx.Snapshot()))
    decreases s, 1
  {
    if !ctx.IsGlobalScope() {
      ctx.PrintError(FunctionDefinitionNotAllowed);
      return false;
    }
    var func := BuildFunc(s.retType, s.name, s.params);
    ok := ctx.DeclareSymbol(s.name, func);
    if !ok {
      ctx.PrintError(FunctionRedeclared(s.name));
    }
    ctx.AddScope(FunctionScope);
    ctx.functions := ctx.functions + [func];
    ctx.declareFuncParams := true;
    var p := AnalyzeParams(s.params, ctx);
    ok := ok && p;
    ctx.declareFuncParams := false;
    var b := AnalyzeBlock(s.fnBody, ctx);
    ok := ok && b;
    ctx.functions := DropTop(ctx.functions);
    ctx.PopScope();
  }
}
