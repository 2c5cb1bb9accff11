/**
 * The semantic-legality walk (`analyze`) as functions from a scope state to an
 * outcome: the success flag the node returns and the state it leaves behind.
 * Every child is analyzed even after an earlier one failed: results are
 * combined as `ret &= child`, which in Dafny is the child's outcome computed
 * first and then joined with `&&`.
 */
module Analysis {
  import opened Wrappers
  import opened Consts
  import opened Utils
  import opened Ast
  import opened ScopeCtx

  /** The result of analyzing a statement. */
  datatype Outcome = Outcome(ok: bool, st: ScopeState)

  /** The result of analyzing an expression: also the type and constness the node records. */
  datatype ExprOutcome = ExprOutcome(ok: bool, dtype: DataType, constant: bool, st: ScopeState)

  /** The state of FunctionCallNode's argument loop: `aborted` is the early `return false`. */
  datatype ArgsOutcome = ArgsOutcome(ok: bool, aborted: bool, st: ScopeState)

  predicate IsIncDec(op: Operator)
  {
    op == PreInc || op == SufInc || op == PreDec || op == SufDec
  }

  /** The parameter variables a FunctionNode copies into its Func, in order. */
  function ParamVars(ps: seq<VarDecl>): seq<Var>
  {
    seq(|ps|, i requires 0 <= i < |ps| => Var(ps[i].dtype, ps[i].name, ps[i].isConst))
  }

  /** The Func symbol FunctionNode builds; its alias is taken to be the identifier. */
  function FuncSymbolOf(ret: DataType, name: string, ps: seq<VarDecl>): Symbol
  {
    FuncSym(ret, ParamVars(ps), name, false)
  }

  /** The error, if any, of writing to the symbol a name resolves to. */
  function WriteError(sym: Option<Symbol>, name: string): Option<ErrorKind>
  {
    match sym
    case Some(FuncSym(_, _, _, _)) => Some(AssignmentOfFunction(name))
    case Some(VarSym(_, c)) => if c then Some(AssignmentOfReadOnly(name)) else None
    case None => None
  }

  /** The callee checks of FunctionCallNode::analyze, in their priority order. */
  function CalleeError(sym: Option<Symbol>, name: string, argCount: nat): Option<ErrorKind>
  {
    match sym
    case None => Some(NotDeclared(name))
    case Some(VarSym(_, _)) => Some(NotAFunction(name))
    case Some(FuncSym(_, ps, _, _)) =>
      if argCount > |ps| then Some(TooManyArguments(name))
      else if argCount < |ps| then Some(TooFewArguments(name))
      else None
  }

  /** The diagnostic a valued case label adds after its value was analyzed. */
  function CaseValueErrors(analyzed: bool, constant: bool, t: DataType): seq<ErrorKind>
  {
    if !analyzed then []
    else if !constant then [ConstantExpressionRequired]
    else if !IsIntegerType(t) then [CaseQuantityNotInteger]
    else []
  }

  /** An identifier: resolved through every layer; a function name has type FUNC_PTR. */
  function AnalyzeIdent(name: string, st: ScopeState): ExprOutcome
  {
    match st.GetSymbol(name)
    case None => ExprOutcome(false, ErrorType, false, st.Report(NotDeclared(name)))
    case Some(VarSym(t, c)) => ExprOutcome(true, t, c, st)
    case Some(FuncSym(_, _, _, _)) => ExprOutcome(true, FuncPtr, false, st)
  }

  function AnalyzeExpr(e: Expr, st: ScopeState): ExprOutcome
    decreases e, 2, 0
  {
    match e.node
    case Ident(n) => AnalyzeIdent(n, st)
    case Literal(_, t) => ExprOutcome(true, t, true, st)
    case AssignOp(n, v) =>
      var lhs := AnalyzeIdent(n, st);
      var rhs := AnalyzeExpr(v, lhs.st);
      var err := if lhs.ok then WriteError(rhs.st.GetSymbol(n), n) else None;
      ExprOutcome(lhs.ok && rhs.ok && err.None?, lhs.dtype, false,
                  if err.Some? then rhs.st.Report(err.value) else rhs.st)
    case BinaryOp(_, l, r) =>
      var a := AnalyzeExpr(l, st);
      var b := AnalyzeExpr(r, a.st);
      var voidFree := a.dtype != Void && b.dtype != Void;
      ExprOutcome(a.ok && b.ok && voidFree, Wider(a.dtype, b.dtype), a.constant && b.constant,
                  if voidFree then b.st else b.st.Report(VoidOperand))
    case UnaryOp(op, x) =>
      var a := AnalyzeExpr(x, st);
      var voidFree := a.dtype != Void;
      var st1 := if voidFree then a.st else a.st.Report(VoidOperand);
      var err :=
        if !IsIncDec(op) || !a.ok then None
        else if x.node.Ident? then WriteError(st1.GetSymbol(x.node.name), x.node.name)
        else Some(LvalueRequired);
      ExprOutcome(a.ok && voidFree && err.None?, a.dtype, a.constant && !IsIncDec(op),
                  if err.Some? then st1.Report(err.value) else st1)
    case Call(_, _, _) => AnalyzeCall(e, st)
  }

  /** FunctionCallNode::analyze. */
  function AnalyzeCall(e: Expr, st: ScopeState): ExprOutcome
    requires e.node.Call?
    decreases e, 1, 0
  {
    var name := e.node.callee;
    var sym := st.GetSymbol(name);
    var head := CalleeError(sym, name, |e.node.args|);
    var ty := if head.None? then sym.value.dtype else ErrorType;
    var isFunc := sym.Some? && sym.value.FuncSym?;
    var loop := ArgsLoop(e, 0, isFunc, head.None?, if head.Some? then st.Report(head.value) else st);
    if loop.aborted then ExprOutcome(false, ty, false, loop.st)
    else ExprOutcome(loop.ok, ty, false, if loop.ok then loop.st.MarkUsed(name) else loop.st)
  }

  /** The argument loop from index i on: a failing argument clears `ret` and the loop goes on; a void argument to a resolved function, or an argument of type FUNC_PTR, returns false at once. */
  function ArgsLoop(e: Expr, i: nat, isFunc: bool, ret: bool, st: ScopeState): ArgsOutcome
    requires e.node.Call? && i <= |e.node.args|
    decreases e, 0, |e.node.args| - i
  {
    if i == |e.node.args| then ArgsOutcome(ret, false, st)
    else
      var a := AnalyzeExpr(e.node.args[i], st);
      if !a.ok then ArgsLoop(e, i + 1, isFunc, false, a.st)
      else if (isFunc && a.dtype == Void) || a.dtype == FuncPtr then ArgsOutcome(false, true, a.st.Report(InvalidConversion))
      else ArgsLoop(e, i + 1, isFunc, ret, a.st)
  }

  /** VarDeclarationNode::analyze, stage 1: a void type is refused before declareSymbol is tried. */
  function DeclareVar(d: VarDecl, st: ScopeState): Outcome
  {
    if d.dtype == Void then Outcome(false, st.Report(DeclaredVoid(d.name)))
    else
      var r := st.DeclareSymbol(d.name, VarSym(d.dtype, d.isConst));
      if r.0 then Outcome(true, r.1) else Outcome(false, st.Report(VariableRedeclared(d.name)))
  }

  /** Stage 2: the initializer, analyzed with initializeVar set. */
  function InitializeVar(d: VarDecl, o: Outcome): Outcome
  {
    if d.value.Some? then
      var v := AnalyzeExpr(d.value.value, o.st.(initializeVar := true));
      Outcome(o.ok && v.ok, v.st.(initializeVar := false))
    else o
  }

  /** Stage 3: no initializer on a parameter, and a const outside a parameter list needs one. */
  function CheckDeclFlags(d: VarDecl, o: Outcome): Outcome
  {
    if o.st.declareFuncParams && d.value.Some? then
      Outcome(false, o.st.Report(DefaultParameter))
    else if d.isConst && d.value.None? && !o.st.declareFuncParams then
      Outcome(false, o.st.Report(UninitializedConst(d.name)))
    else o
  }

  /** Stage 4: an initialized declaration is recorded on the enclosing switch. */
  function RecordInSwitch(d: VarDecl, o: Outcome): Outcome
  {
    var k := o.st.GetSwitchScope();
    if k.Some? && d.value.Some? then
      var sw := o.st.layers[k.value].switchState;
      Outcome(o.ok, o.st.SetSwitchState(k.value, sw.(initializedVars := sw.initializedVars + [d])))
    else o
  }

  /** VarDeclarationNode::analyze. */
  function AnalyzeVarDecl(d: VarDecl, st: ScopeState): Outcome
  {
    RecordInSwitch(d, CheckDeclFlags(d, InitializeVar(d, DeclareVar(d, st))))
  }

  /** The parameter loop of FunctionNode::analyze. */
  function AnalyzeParams(ps: seq<VarDecl>, st: ScopeState): Outcome
  {
    if ps == [] then Outcome(true, st)
    else
      var a := AnalyzeVarDecl(ps[0], st);
      var r := AnalyzeParams(ps[1..], a.st);
      Outcome(a.ok && r.ok, r.st)
  }

  /** The statement loop of BlockNode::analyze. */
  function AnalyzeSeq(ss: seq<Stmt>, st: ScopeState): Outcome
    decreases ss, 0
  {
    if ss == [] then Outcome(true, st)
    else
      var a := AnalyzeStmt(ss[0], st);
      var r := AnalyzeSeq(ss[1..], a.st);
      Outcome(a.ok && r.ok, r.st)
  }

  /** BlockNode::analyze. */
  function AnalyzeBlock(ss: seq<Stmt>, st: ScopeState): Outcome
    decreases ss, 1
  {
    if st.IsGlobalScope() then Outcome(false, st.Report(NotAllowedInGlobal(BlockConstruct)))
    else
      var r := AnalyzeSeq(ss, st.AddScope(BlockScope));
      Outcome(r.ok, r.st.PopScope())
  }

  /** An optional expression child, analyzed only when present. */
  function AnalyzeOptExpr(e: Option<Expr>, st: ScopeState): Outcome
  {
    if e.Some? then var r := AnalyzeExpr(e.value, st); Outcome(r.ok, r.st) else Outcome(true, st)
  }

  /** A loop with its condition and body, in a LOOP layer (WhileNode and DoWhileNode). */
  function AnalyzeLoop(s: Stmt, st: ScopeState): Outcome
    requires s.While? || s.DoWhile?
    decreases s, 1
  {
    if st.IsGlobalScope() then Outcome(false, st.Report(NotAllowedInGlobal(if s.While? then WhileConstruct else DoWhileConstruct)))
    else
      var a := AnalyzeExpr(s.cond, st.AddScope(LoopScope));
      var b := AnalyzeStmt(s.body, a.st);
      Outcome(a.ok && b.ok, b.st.PopScope())
  }

  /** IfNode::analyze. */
  function AnalyzeIf(s: Stmt, st: ScopeState): Outcome
    requires s.If?
    decreases s, 1
  {
    if st.IsGlobalScope() then Outcome(false, st.Report(NotAllowedInGlobal(IfConstruct)))
    else
      var a := AnalyzeExpr(s.cond, st.AddScope(IfScope));
      var b := AnalyzeStmt(s.thenBody, a.st);
      var r := if s.elseBody.Some? then AnalyzeStmt(s.elseBody.value, b.st) else Outcome(true, b.st);
      Outcome(a.ok && b.ok && r.ok, r.st.PopScope())
  }

  /** The three heads of a for loop, each analyzed only when present, in a LOOP layer already pushed. */
  function AnalyzeForHeads(s: Stmt, st: ScopeState): Outcome
    requires s.For?
    decreases s, 0
  {
    var i := if s.init.Some? then AnalyzeStmt(s.init.value, st) else Outcome(true, st);
    var c := AnalyzeOptExpr(s.forCond, i.st);
    var n := AnalyzeOptExpr(s.inc, c.st);
    Outcome(i.ok && c.ok && n.ok, n.st)
  }

  /** ForNode::analyze. */
  function AnalyzeFor(s: Stmt, st: ScopeState): Outcome
    requires s.For?
    decreases s, 1
  {
    if st.IsGlobalScope() then Outcome(false, st.Report(NotAllowedInGlobal(ForConstruct)))
    else
      var h := AnalyzeForHeads(s, st.AddScope(LoopScope));
      var b := AnalyzeStmt(s.body, h.st);
      Outcome(h.ok && b.ok, b.st.PopScope())
  }

  /** SwitchNode::analyze. */
  function AnalyzeSwitch(s: Stmt, st: ScopeState): Outcome
    requires s.Switch?
    decreases s, 1
  {
    if st.IsGlobalScope() then Outcome(false, st.Report(NotAllowedInGlobal(SwitchConstruct)))
    else
      var a := AnalyzeExpr(s.cond, st.AddScope(SwitchScope));
      var intOk := IsIntegerType(a.dtype);
      var b := AnalyzeStmt(s.body, if intOk then a.st else a.st.Report(SwitchQuantityNotInteger));
      Outcome(a.ok && intOk && b.ok, b.st.PopScope())
  }

  /** CaseLabelNode::analyze: the enclosing switch's state is written through its layer index. */
  function AnalyzeCase(s: Stmt, st: ScopeState): Outcome
    requires s.CaseLabel?
    decreases s, 1
  {
    match st.GetSwitchScope()
    case None => Outcome(false, st.Report(CaseNotWithinSwitch))
    case Some(k) =>
      var sw := st.layers[k].switchState;
      var counted := sw.(caseLabelCnt := sw.caseLabelCnt + 1);
      if s.value.Some? then AnalyzeCaseValue(s, st.SetSwitchState(k, counted))
      else AnalyzeDefault(s, st.SetSwitchState(k, counted), k, counted)
  }

  /** A valued case label, after the count was taken: at most one of the two value diagnostics. */
  function AnalyzeCaseValue(s: Stmt, st: ScopeState): Outcome
    requires s.CaseLabel? && s.value.Some?
    decreases s, 0
  {
    var a := AnalyzeExpr(s.value.value, st);
    var errs := CaseValueErrors(a.ok, a.constant, a.dtype);
    var b := AnalyzeStmt(s.body, a.st.(errors := a.st.errors + errs));
    Outcome(a.ok && errs == [] && b.ok, b.st)
  }

  /** A default label, after the count was taken; sw is the state of the switch at layer k. */
  function AnalyzeDefault(s: Stmt, st: ScopeState, k: nat, sw: SwitchState): Outcome
    requires s.CaseLabel? && s.value.None?
    decreases s, 0
  {
    var st1 := if sw.hasDefaultLabel then st.Report(MultipleDefaultLabels) else st;
    var b := AnalyzeStmt(s.body, st1.SetSwitchState(k, sw.(hasDefaultLabel := true)));
    Outcome(!sw.hasDefaultLabel && b.ok, b.st)
  }

  /** FunctionNode::analyze. */
  function AnalyzeFunction(s: Stmt, st: ScopeState): Outcome
    requires s.FunctionDef?
    decreases s, 1
  {
    if !st.IsGlobalScope() then Outcome(false, st.Report(FunctionDefinitionNotAllowed))
    else
      var func := FuncSymbolOf(s.retType, s.name, s.params);
      var d := st.DeclareSymbol(s.name, func);
      var st1 := if d.0 then d.1 else st.Report(FunctionRedeclared(s.name));
      var st2 := st1.AddScope(FunctionScope).(functions := st1.functions + [func], declareFuncParams := true);
      var p := AnalyzeParams(s.params, st2);
      var b := AnalyzeBlock(s.fnBody, p.st.(declareFuncParams := false));
      Outcome(d.0 && p.ok && b.ok, b.st.(functions := DropTop(b.st.functions)).PopScope())
  }

  /** The `analyze` of a statement node, dispatched on its kind. */
  function AnalyzeStmt(s: Stmt, st: ScopeState): Outcome
    decreases s, 2
  {
    match s
    case Block(ss) => AnalyzeBlock(ss, st)
    case Decl(d) => AnalyzeVarDecl(d, st)
    case If(_, _, _) => AnalyzeIf(s, st)
    case While(_, _) => AnalyzeLoop(s, st)
    case DoWhile(_, _) => AnalyzeLoop(s, st)
    case For(_, _, _, _) => AnalyzeFor(s, st)
    case Switch(_, _) => AnalyzeSwitch(s, st)
    case CaseLabel(_, _) => AnalyzeCase(s, st)
    case Break =>
      if st.HasBreakScope() then Outcome(true, st) else Outcome(false, st.Report(BreakNotWithinLoopOrSwitch))
    case Continue =>
      if st.HasLoopScope() then Outcome(true, st) else Outcome(false, st.Report(ContinueNotWithinLoop))
    case FunctionDef(_, _, _, _) => AnalyzeFunction(s, st)
    case ErrorStmt => Outcome(false, st.Report(SyntaxError))
    case ExprStmt(e) =>
      // a bare expression statement is refused at global scope, unless an initializer is being analyzed
      if st.IsGlobalScope() && !st.initializeVar then Outcome(false, st.Report(NotAllowedInGlobal(ExpressionConstruct)))
      else var r := AnalyzeExpr(e, st); Outcome(r.ok, r.st)
  }
}
