/**
 * What the analysis pass guarantees, proved about the functions of module
 * Analysis (and so about the methods of module Analyzer, which equal them).
 */
module AnalysisProps {
  import opened Wrappers
  import opened Consts
  import opened Utils
  import opened Ast
  import opened ScopeCtx
  import opened Analysis

  // ---------------------------------------------------------------------------
  // Frames
  // ---------------------------------------------------------------------------

  /** A symbol with its `used` mark cleared: the declaration itself. */
  function Plain(sym: Symbol): Symbol
  {
    if sym.FuncSym? then sym.(used := false) else sym
  }

  /** A layer with every `used` mark cleared. */
  function PlainLayer(l: Layer): Layer
  {
    l.(symbols := map n | n in l.symbols :: Plain(l.symbols[n]))
  }

  function Plains(layers: seq<Layer>): seq<Layer>
  {
    seq(|layers|, i requires 0 <= i < |layers| => PlainLayer(layers[i]))
  }

  /** What a statement does to the switch it sits in: the case labels it takes, and whether one of them is a default label. */
  datatype Labels = Labels(cases: nat, hasDefault: bool)
  {
    function Plus(o: Labels): Labels
    {
      Labels(cases + o.cases, hasDefault || o.hasDefault)
    }
  }

  const NoLabels := Labels(0, false)

  /** The case-label count and default flag of every layer, outermost first. */
  function Counts(layers: seq<Layer>): seq<Labels>
  {
    seq(|layers|, i requires 0 <= i < |layers| =>
      Labels(layers[i].switchState.caseLabelCnt, layers[i].switchState.hasDefaultLabel))
  }

  /** The counts after the labels l were taken by the switch at layer k, if any. */
  function Bump(c: seq<Labels>, k: Option<nat>, l: Labels): seq<Labels>
  {
    if k.Some? && k.value < |c| then c[k.value := c[k.value].Plus(l)] else c
  }

  /** b is a and then more. */
  ghost predicate Grows(a: seq<ErrorKind>, b: seq<ErrorKind>)
  {
    |a| <= |b| && b[..|a|] == a
  }

  /** What analyzing an expression may change: diagnostics are appended and functions marked used; nothing else. */
  ghost predicate ExprFrame(st: ScopeState, st': ScopeState)
  {
    Plains(st'.layers) == Plains(st.layers)
    && st'.functions == st.functions
    && st'.declareFuncParams == st.declareFuncParams
    && st'.initializeVar == st.initializeVar
    && Grows(st.errors, st'.errors)
  }

  /**
   * What analyzing a statement may change. The layer kinds (the scope stack)
   * and the functions stack come back as they were; diagnostics are only
   * appended; the count of the innermost switch grows by the case labels
   * analyzed against it and no other count changes.
   */
  ghost predicate StmtFrame(st: ScopeState, st': ScopeState, l: Labels)
  {
    Kinds(st'.layers) == Kinds(st.layers)
    && st'.functions == st.functions
    && Grows(st.errors, st'.errors)
    && Counts(st'.layers) == Bump(Counts(st.layers), SwitchIn(st.layers), l)
  }

  /** A node's result is true exactly when it reported no diagnostic. */
  ghost predicate Reported(st: ScopeState, ok: bool, st': ScopeState)
  {
    ok <==> |st'.errors| == |st.errors|
  }

  /** Below global scope, declareFuncParams is left as it was (only a function definition sets it). */
  ghost predicate FlagKept(st: ScopeState, st': ScopeState)
  {
    !st.IsGlobalScope() ==> st'.declareFuncParams == st.declareFuncParams
  }

  /** The whole statement-level guarantee. */
  ghost predicate Sound(st: ScopeState, r: Outcome, l: Labels)
  {
    StmtFrame(st, r.st, l) && Reported(st, r.ok, r.st) && FlagKept(st, r.st)
  }

  /** The context shape every node is analyzed in: a global BLOCK layer at the bottom. */
  ghost predicate WellFormed(st: ScopeState)
  {
    |st.layers| >= 1 && st.layers[0].kind == BlockScope
  }

  /** Case labels a statement analyzes against the switch it sits in (those not inside a nested switch). */
  function LabelsOf(s: Stmt): Labels
    decreases s, 1
  {
    match s
    case Block(ss) => LabelsOfSeq(ss)
    case If(_, t, el) => LabelsOf(t).Plus(if el.Some? then LabelsOf(el.value) else NoLabels)
    case While(_, b) => LabelsOf(b)
    case DoWhile(_, b) => LabelsOf(b)
    case For(init, _, _, b) => (if init.Some? then LabelsOf(init.value) else NoLabels).Plus(LabelsOf(b))
    case CaseLabel(v, b) => Labels(1, v.None?).Plus(LabelsOf(b))
    case _ => NoLabels
  }

  function LabelsOfSeq(ss: seq<Stmt>): Labels
    decreases ss, 0
  {
    if ss == [] then NoLabels else LabelsOf(ss[0]).Plus(LabelsOfSeq(ss[1..]))
  }

  // ---------------------------------------------------------------------------
  // Facts about single context operations
  // ---------------------------------------------------------------------------

  lemma {:induction false} SwitchInByKinds(a: seq<Layer>, b: seq<Layer>)
    requires Kinds(a) == Kinds(b)
    ensures SwitchIn(a) == SwitchIn(b)
    decreases |a|
  {
    assert |a| == |Kinds(a)| == |b|;
    if |a| > 0 {
      assert a[|a| - 1].kind == Kinds(a)[|a| - 1] == b[|b| - 1].kind;
      var a', b' := a[..|a| - 1], b[..|b| - 1];
      assert Kinds(a') == Kinds(b') by {
        forall i | 0 <= i < |a'| ensures Kinds(a')[i] == Kinds(b')[i] {
          assert Kinds(a)[i] == Kinds(b)[i];
        }
      }
      SwitchInByKinds(a', b');
    }
  }

  lemma SwitchInPush(layers: seq<Layer>, k: ScopeType)
    ensures SwitchIn(layers + [NewLayer(k)]) ==
      if k == SwitchScope then Some(|layers|) else if k == FunctionScope then None else SwitchIn(layers)
  {
    assert (layers + [NewLayer(k)])[..|layers|] == layers;
  }

  lemma PlainsDetermine(a: seq<Layer>, b: seq<Layer>)
    requires Plains(a) == Plains(b)
    ensures Kinds(a) == Kinds(b) && Counts(a) == Counts(b)
  {
    assert |a| == |Plains(a)| == |b|;
    forall i | 0 <= i < |a| ensures a[i].kind == b[i].kind && a[i].switchState == b[i].switchState {
      assert Plains(a)[i] == Plains(b)[i];
    }
  }

  lemma BumpNothing(c: seq<Labels>, k: Option<nat>)
    ensures Bump(c, k, NoLabels) == c
  {
    if k.Some? && k.value < |c| {
      assert c[k.value].Plus(NoLabels) == c[k.value];
    }
  }

  lemma BumpAdds(c: seq<Labels>, k: Option<nat>, m: Labels, n: Labels)
    ensures Bump(Bump(c, k, m), k, n) == Bump(c, k, m.Plus(n))
  {
  }

  lemma ExprFrameTrans(a: ScopeState, b: ScopeState, c: ScopeState)
    requires ExprFrame(a, b) && ExprFrame(b, c)
    ensures ExprFrame(a, c)
  {
    assert a.errors == b.errors[..|a.errors|] == c.errors[..|a.errors|];
  }

  /** Analyzing an expression is a statement-level step that takes no case label. */
  lemma ExprFrameIsStmtFrame(st: ScopeState, st': ScopeState)
    requires ExprFrame(st, st')
    ensures StmtFrame(st, st', NoLabels)
  {
    PlainsDetermine(st'.layers, st.layers);
    BumpNothing(Counts(st.layers), SwitchIn(st.layers));
  }

  lemma PlusUnit(l: Labels)
    ensures l.Plus(NoLabels) == l && NoLabels.Plus(l) == l
  {
  }

  /** A step that takes no label, then one that takes n. */
  lemma StmtFrameThen(a: ScopeState, b: ScopeState, c: ScopeState, n: Labels)
    requires StmtFrame(a, b, NoLabels) && StmtFrame(b, c, n)
    ensures StmtFrame(a, c, n)
  {
    StmtFrameTrans(a, b, c, NoLabels, n);
    PlusUnit(n);
  }

  /** A step that takes m, then one that takes no label. */
  lemma StmtFrameBefore(a: ScopeState, b: ScopeState, c: ScopeState, m: Labels)
    requires StmtFrame(a, b, m) && StmtFrame(b, c, NoLabels)
    ensures StmtFrame(a, c, m)
  {
    StmtFrameTrans(a, b, c, m, NoLabels);
    PlusUnit(m);
  }

  lemma StmtFrameTrans(a: ScopeState, b: ScopeState, c: ScopeState, m: Labels, n: Labels)
    requires StmtFrame(a, b, m) && StmtFrame(b, c, n)
    ensures StmtFrame(a, c, m.Plus(n))
  {
    SwitchInByKinds(a.layers, b.layers);
    BumpAdds(Counts(a.layers), SwitchIn(a.layers), m, n);
    assert |Counts(a.layers)| == |a.layers|;
    assert a.errors == b.errors[..|a.errors|] == c.errors[..|a.errors|];
  }

  lemma ReportFrame(st: ScopeState, e: ErrorKind)
    ensures ExprFrame(st, st.Report(e)) && |st.Report(e).errors| == |st.errors| + 1
  {
  }

  lemma MarkUsedFrame(st: ScopeState, name: string)
    ensures ExprFrame(st, st.MarkUsed(name)) && st.MarkUsed(name).errors == st.errors
  {
    match LookupIndex(st.layers, name)
    case None =>
    case Some(i) =>
      var sym := st.layers[i].symbols[name];
      if sym.FuncSym? {
        var l := st.layers[i];
        var l' := l.(symbols := l.symbols[name := sym.(used := true)]);
        assert PlainLayer(l') == PlainLayer(l) by {
          assert (map n | n in l'.symbols :: Plain(l'.symbols[n])) == (map n | n in l.symbols :: Plain(l.symbols[n]));
        }
        assert Plains(st.layers[i := l']) == Plains(st.layers) by {
          forall j | 0 <= j < |st.layers| ensures Plains(st.layers[i := l'])[j] == Plains(st.layers)[j] {
          }
        }
      }
  }

  lemma DeclareFrame(st: ScopeState, name: string, sym: Symbol)
    ensures StmtFrame(st, st.DeclareSymbol(name, sym).1, NoLabels)
    ensures st.DeclareSymbol(name, sym).1.errors == st.errors
    ensures st.DeclareSymbol(name, sym).1.declareFuncParams == st.declareFuncParams
  {
    var st' := st.DeclareSymbol(name, sym).1;
    assert Kinds(st'.layers) == Kinds(st.layers);
    assert Counts(st'.layers) == Counts(st.layers);
    BumpNothing(Counts(st.layers), SwitchIn(st.layers));
  }

  /** Writing a switch state that keeps the count and the default flag. */
  lemma SetSwitchKeepsCount(st: ScopeState, k: nat, sw: SwitchState)
    requires k < |st.layers| && sw.caseLabelCnt == st.layers[k].switchState.caseLabelCnt
    requires sw.hasDefaultLabel == st.layers[k].switchState.hasDefaultLabel
    ensures StmtFrame(st, st.SetSwitchState(k, sw), NoLabels)
    ensures st.SetSwitchState(k, sw).errors == st.errors
    ensures st.SetSwitchState(k, sw).declareFuncParams == st.declareFuncParams
  {
    var st' := st.SetSwitchState(k, sw);
    assert Kinds(st'.layers) == Kinds(st.layers);
    assert Counts(st'.layers) == Counts(st.layers);
    BumpNothing(Counts(st.layers), SwitchIn(st.layers));
  }

  /** A case label taking its count from the innermost switch. */
  lemma CaseCountStep(st: ScopeState, k: nat)
    requires SwitchIn(st.layers) == Some(k)
    ensures var sw := st.layers[k].switchState;
      StmtFrame(st, st.SetSwitchState(k, sw.(caseLabelCnt := sw.caseLabelCnt + 1)), Labels(1, false))
  {
    var sw := st.layers[k].switchState;
    var st' := st.SetSwitchState(k, sw.(caseLabelCnt := sw.caseLabelCnt + 1));
    assert Kinds(st'.layers) == Kinds(st.layers);
    assert Counts(st'.layers) == Counts(st.layers)[k := Labels(sw.caseLabelCnt + 1, sw.hasDefaultLabel)];
  }

  /** A default label setting the flag of the innermost switch. */
  lemma DefaultStep(st: ScopeState, k: nat, sw: SwitchState)
    requires SwitchIn(st.layers) == Some(k) && sw.caseLabelCnt == st.layers[k].switchState.caseLabelCnt
    ensures StmtFrame(st, st.SetSwitchState(k, sw.(hasDefaultLabel := true)), Labels(0, true))
    ensures st.SetSwitchState(k, sw.(hasDefaultLabel := true)).errors == st.errors
  {
    var st' := st.SetSwitchState(k, sw.(hasDefaultLabel := true));
    assert Kinds(st'.layers) == Kinds(st.layers);
    assert Counts(st'.layers) == Counts(st.layers)[k := Labels(sw.caseLabelCnt, true)];
  }

  // ---------------------------------------------------------------------------
  // Expressions
  // ---------------------------------------------------------------------------

  lemma IdentSound(name: string, st: ScopeState)
    ensures var r := AnalyzeIdent(name, st); ExprFrame(st, r.st) && Reported(st, r.ok, r.st)
  {
  }

  /**
   * Expression analysis changes nothing but the diagnostics and `used` marks,
   * and its result is true exactly when it reported nothing.
   */
  lemma {:induction false} ExprSound(e: Expr, st: ScopeState)
    ensures var r := AnalyzeExpr(e, st); ExprFrame(st, r.st) && Reported(st, r.ok, r.st)
    decreases e, 2, 0
  {
    match e.node
    case Ident(n) =>
      IdentSound(n, st);
    case Literal(_, _) =>
    case AssignOp(n, v) =>
      var lhs := AnalyzeIdent(n, st);
      IdentSound(n, st);
      var rhs := AnalyzeExpr(v, lhs.st);
      ExprSound(v, lhs.st);
      ExprFrameTrans(st, lhs.st, rhs.st);
      var err := if lhs.ok then WriteError(rhs.st.GetSymbol(n), n) else None;
      if err.Some? {
        ReportFrame(rhs.st, err.value);
        ExprFrameTrans(st, rhs.st, rhs.st.Report(err.value));
      }
    case BinaryOp(_, l, r) =>
      var a := AnalyzeExpr(l, st);
      ExprSound(l, st);
      var b := AnalyzeExpr(r, a.st);
      ExprSound(r, a.st);
      ExprFrameTrans(st, a.st, b.st);
      if a.dtype == Void || b.dtype == Void {
        ReportFrame(b.st, VoidOperand);
        ExprFrameTrans(st, b.st, b.st.Report(VoidOperand));
      }
    case UnaryOp(op, x) =>
      var a := AnalyzeExpr(x, st);
      ExprSound(x, st);
      var st1 := if a.dtype != Void then a.st else a.st.Report(VoidOperand);
      ReportFrame(a.st, VoidOperand);
      ExprFrameTrans(st, a.st, st1);
      var err :=
        if !IsIncDec(op) || !a.ok then None
        else if x.node.Ident? then WriteError(st1.GetSymbol(x.node.name), x.node.name)
        else Some(LvalueRequired);
      if err.Some? {
        ReportFrame(st1, err.value);
        ExprFrameTrans(st, st1, st1.Report(err.value));
      }
    case Call(_, _, _) =>
      CallSound(e, st);
  }

  lemma {:induction false} CallSound(e: Expr, st: ScopeState)
    requires e.node.Call?
    ensures var r := AnalyzeCall(e, st); ExprFrame(st, r.st) && Reported(st, r.ok, r.st)
    decreases e, 1, 0
  {
    var name := e.node.callee;
    var sym := st.GetSymbol(name);
    var head := CalleeError(sym, name, |e.node.args|);
    var isFunc := sym.Some? && sym.value.FuncSym?;
    var st1 := if head.Some? then st.Report(head.value) else st;
    if head.Some? {
      ReportFrame(st, head.value);
    }
    var loop := ArgsLoop(e, 0, isFunc, head.None?, st1);
    ArgsSound(e, 0, isFunc, head.None?, st1);
    ExprFrameTrans(st, st1, loop.st);
    if !loop.aborted && loop.ok {
      MarkUsedFrame(loop.st, name);
      ExprFrameTrans(st, loop.st, loop.st.MarkUsed(name));
    }
  }

  lemma {:induction false} ArgsSound(e: Expr, i: nat, isFunc: bool, ret: bool, st: ScopeState)
    requires e.node.Call? && i <= |e.node.args|
    ensures var r := ArgsLoop(e, i, isFunc, ret, st);
      ExprFrame(st, r.st)
      && (r.ok <==> ret && |r.st.errors| == |st.errors|)
      && (r.aborted ==> !r.ok && |r.st.errors| > |st.errors|)
    decreases e, 0, |e.node.args| - i
  {
    if i < |e.node.args| {
      var a := AnalyzeExpr(e.node.args[i], st);
      ExprSound(e.node.args[i], st);
      if !a.ok {
        ArgsSound(e, i + 1, isFunc, false, a.st);
        ExprFrameTrans(st, a.st, ArgsLoop(e, i + 1, isFunc, false, a.st).st);
      } else if (isFunc && a.dtype == Void) || a.dtype == FuncPtr {
        ReportFrame(a.st, InvalidConversion);
        ExprFrameTrans(st, a.st, a.st.Report(InvalidConversion));
      } else {
        ArgsSound(e, i + 1, isFunc, ret, a.st);
        ExprFrameTrans(st, a.st, ArgsLoop(e, i + 1, isFunc, ret, a.st).st);
      }
    }
  }

  // ---------------------------------------------------------------------------
  // Statements
  // ---------------------------------------------------------------------------

  lemma GlobalHasNoSwitch(st: ScopeState)
    requires WellFormed(st) && st.IsGlobalScope()
    ensures SwitchIn(st.layers).None?
  {
    assert st.layers[..0] == [];
  }

  lemma WellFormedByKinds(st: ScopeState, st': ScopeState)
    requires WellFormed(st) && |st'.layers| == |st.layers| && Kinds(st'.layers) == Kinds(st.layers)
    ensures WellFormed(st')
  {
    assert st'.layers[0].kind == Kinds(st'.layers)[0] == Kinds(st.layers)[0];
  }

  lemma CountsPush(layers: seq<Layer>, k: ScopeType)
    ensures Kinds(layers + [NewLayer(k)]) == Kinds(layers) + [k]
    ensures Counts(layers + [NewLayer(k)]) == Counts(layers) + [NoLabels]
  {
  }

  lemma CountsPop(layers: seq<Layer>)
    requires |layers| > 0
    ensures Kinds(DropTop(layers)) == Kinds(layers)[..|layers| - 1]
    ensures Counts(DropTop(layers)) == Counts(layers)[..|layers| - 1]
  {
  }

  /** A layer pushed on entry and popped on exit: the outer context's frame; labels taken by a nested switch, or inside a function, are not counted outside it. */
  lemma ScopedFrame(st: ScopeState, inner: ScopeState, k: ScopeType, x: ScopeState, n: Labels)
    requires |st.layers| >= 1 && inner.layers == st.layers + [NewLayer(k)] && inner.errors == st.errors
    requires StmtFrame(inner, x, n)
    ensures StmtFrame(st, x.PopScope().(functions := st.functions), if k == SwitchScope || k == FunctionScope then NoLabels else n)
  {
    CountsPush(st.layers, k);
    SwitchInPush(st.layers, k);
    assert |x.layers| == |Kinds(x.layers)| == |st.layers| + 1;
    CountsPop(x.layers);
    assert Kinds(st.layers) == (Kinds(st.layers) + [k])[..|st.layers|];
    var c := Counts(st.layers);
    assert |c| == |st.layers|;
    var sw := SwitchIn(st.layers);
    if k == SwitchScope || k == FunctionScope {
      assert Bump(c + [NoLabels], SwitchIn(inner.layers), n)[..|c|] == c;
    } else {
      assert Bump(c + [NoLabels], sw, n)[..|c|] == Bump(c, sw, n);
    }
  }

  /** A stage of a node that carries the result so far: its frame, and it fails exactly when it adds a diagnostic or the result already failed. */
  ghost predicate Step(o: Outcome, r: Outcome, l: Labels)
  {
    StmtFrame(o.st, r.st, l)
    && (r.ok <==> o.ok && |r.st.errors| == |o.st.errors|)
    && r.st.declareFuncParams == o.st.declareFuncParams
  }

  lemma StepTrans(a: Outcome, b: Outcome, c: Outcome)
    requires Step(a, b, NoLabels) && Step(b, c, NoLabels)
    ensures Step(a, c, NoLabels)
  {
    StmtFrameThen(a.st, b.st, c.st, NoLabels);
  }

  lemma DeclareVarStep(d: VarDecl, st: ScopeState)
    ensures Step(Outcome(true, st), DeclareVar(d, st), NoLabels)
  {
    DeclareFrame(st, d.name, VarSym(d.dtype, d.isConst));
    ReportFrame(st, DeclaredVoid(d.name));
    ExprFrameIsStmtFrame(st, st.Report(DeclaredVoid(d.name)));
    ReportFrame(st, VariableRedeclared(d.name));
    ExprFrameIsStmtFrame(st, st.Report(VariableRedeclared(d.name)));
  }

  /** Setting a flag leaves the statement frame. */
  lemma FlagsOnly(st: ScopeState, st': ScopeState)
    requires st'.layers == st.layers && st'.functions == st.functions && st'.errors == st.errors
    ensures StmtFrame(st, st', NoLabels)
  {
    BumpNothing(Counts(st.layers), SwitchIn(st.layers));
  }

  lemma InitializeVarStep(d: VarDecl, o: Outcome)
    ensures Step(o, InitializeVar(d, o), NoLabels)
  {
    if d.value.Some? {
      var pre := o.st.(initializeVar := true);
      var v := AnalyzeExpr(d.value.value, pre);
      ExprSound(d.value.value, pre);
      FlagsOnly(o.st, pre);
      ExprFrameIsStmtFrame(pre, v.st);
      FlagsOnly(v.st, v.st.(initializeVar := false));
      StmtFrameThen(o.st, pre, v.st, NoLabels);
      StmtFrameThen(o.st, v.st, v.st.(initializeVar := false), NoLabels);
    } else {
      FlagsOnly(o.st, o.st);
    }
  }

  lemma CheckDeclFlagsStep(d: VarDecl, o: Outcome)
    ensures Step(o, CheckDeclFlags(d, o), NoLabels)
  {
    ReportFrame(o.st, DefaultParameter);
    ReportFrame(o.st, UninitializedConst(d.name));
    ExprFrameIsStmtFrame(o.st, CheckDeclFlags(d, o).st);
  }

  lemma RecordInSwitchStep(d: VarDecl, o: Outcome)
    ensures Step(o, RecordInSwitch(d, o), NoLabels)
  {
    var k := o.st.GetSwitchScope();
    if k.Some? && d.value.Some? {
      var sw := o.st.layers[k.value].switchState;
      SetSwitchKeepsCount(o.st, k.value, sw.(initializedVars := sw.initializedVars + [d]));
    } else {
      ExprFrameIsStmtFrame(o.st, o.st);
    }
  }

  lemma VarDeclSound(d: VarDecl, st: ScopeState)
    ensures Sound(st, AnalyzeVarDecl(d, st), NoLabels)
  {
    var o1 := DeclareVar(d, st);
    var o2 := InitializeVar(d, o1);
    var o3 := CheckDeclFlags(d, o2);
    DeclareVarStep(d, st);
    InitializeVarStep(d, o1);
    CheckDeclFlagsStep(d, o2);
    RecordInSwitchStep(d, o3);
    StepTrans(Outcome(true, st), o1, o2);
    StepTrans(Outcome(true, st), o2, o3);
    StepTrans(Outcome(true, st), o3, RecordInSwitch(d, o3));
  }

  lemma {:induction false} ParamsSound(ps: seq<VarDecl>, st: ScopeState)
    ensures Sound(st, AnalyzeParams(ps, st), NoLabels)
  {
    if ps != [] {
      var a := AnalyzeVarDecl(ps[0], st);
      VarDeclSound(ps[0], st);
      ParamsSound(ps[1..], a.st);
      StmtFrameThen(st, a.st, AnalyzeParams(ps[1..], a.st).st, NoLabels);
    }
  }

  lemma {:induction false} SeqSound(ss: seq<Stmt>, st: ScopeState)
    requires WellFormed(st)
    ensures Sound(st, AnalyzeSeq(ss, st), LabelsOfSeq(ss))
    decreases ss, 0
  {
    if ss != [] {
      var a := AnalyzeStmt(ss[0], st);
      StmtSound(ss[0], st);
      WellFormedByKinds(st, a.st);
      SeqSound(ss[1..], a.st);
      StmtFrameTrans(st, a.st, AnalyzeSeq(ss[1..], a.st).st, LabelsOf(ss[0]), LabelsOfSeq(ss[1..]));
    }
  }

  lemma {:induction false} BlockSound(ss: seq<Stmt>, st: ScopeState)
    requires WellFormed(st)
    ensures Sound(st, AnalyzeBlock(ss, st), LabelsOfSeq(ss))
    decreases ss, 1
  {
    if st.IsGlobalScope() {
      GlobalHasNoSwitch(st);
      ReportFrame(st, NotAllowedInGlobal(BlockConstruct));
      ExprFrameIsStmtFrame(st, st.Report(NotAllowedInGlobal(BlockConstruct)));
    } else {
      var inner := st.AddScope(BlockScope);
      SeqSound(ss, inner);
      ScopedFrame(st, inner, BlockScope, AnalyzeSeq(ss, inner).st, LabelsOfSeq(ss));
    }
  }

  /** Analysis of any statement: the scope stack and functions stack are restored, diagnostics are only appended, the result is true exactly when none was added, and the innermost switch counts the case labels it owns. */
  lemma {:induction false} StmtSound(s: Stmt, st: ScopeState)
    requires WellFormed(st)
    ensures Sound(st, AnalyzeStmt(s, st), LabelsOf(s))
    decreases s, 3
  {
    match s
    case Block(ss) => BlockSound(ss, st);
    case Decl(d) => VarDeclSound(d, st);
    case If(_, _, _) => IfSound(s, st);
    case While(_, _) => LoopSound(s, st);
    case DoWhile(_, _) => LoopSound(s, st);
    case For(_, _, _, _) => ForSound(s, st);
    case Switch(_, _) => SwitchSound(s, st);
    case CaseLabel(_, _) => CaseSound(s, st);
    case Break =>
      ReportFrame(st, BreakNotWithinLoopOrSwitch);
      ExprFrameIsStmtFrame(st, st.Report(BreakNotWithinLoopOrSwitch));
    case Continue =>
      ReportFrame(st, ContinueNotWithinLoop);
      ExprFrameIsStmtFrame(st, st.Report(ContinueNotWithinLoop));
    case FunctionDef(_, _, _, _) => FunctionSound(s, st);
    case ErrorStmt =>
      ReportFrame(st, SyntaxError);
      ExprFrameIsStmtFrame(st, st.Report(SyntaxError));
    case ExprStmt(e) =>
      if st.IsGlobalScope() && !st.initializeVar {
        GlobalRejected(st, ExpressionConstruct);
      } else {
        ExprSound(e, st);
        ExprFrameIsStmtFrame(st, AnalyzeExpr(e, st).st);
      }
  }

  /** At global scope the node reports once and changes nothing else. */
  lemma GlobalRejected(st: ScopeState, c: Construct)
    requires WellFormed(st) && st.IsGlobalScope()
    ensures forall n: Labels :: Sound(st, Outcome(false, st.Report(NotAllowedInGlobal(c))), n)
  {
    GlobalHasNoSwitch(st);
    ReportFrame(st, NotAllowedInGlobal(c));
    ExprFrameIsStmtFrame(st, st.Report(NotAllowedInGlobal(c)));
  }

  lemma {:induction false} IfSound(s: Stmt, st: ScopeState)
    requires WellFormed(st) && s.If?
    ensures Sound(st, AnalyzeIf(s, st), LabelsOf(s))
    decreases s, 2
  {
    if st.IsGlobalScope() {
      GlobalRejected(st, IfConstruct);
    } else {
      var inner := st.AddScope(IfScope);
      var a := AnalyzeExpr(s.cond, inner);
      ExprSound(s.cond, inner);
      ExprFrameIsStmtFrame(inner, a.st);
      WellFormedByKinds(inner, a.st);
      IfBranchesSound(s, a.st);
      var r := IfBranches(s, a.st);
      StmtFrameThen(inner, a.st, r.st, LabelsOf(s));
      ScopedFrame(st, inner, IfScope, r.st, LabelsOf(s));
    }
  }

  /** The two branches of an if, analyzed one after the other after the condition. */
  function IfBranches(s: Stmt, st: ScopeState): Outcome
    requires s.If?
  {
    var b := AnalyzeStmt(s.thenBody, st);
    var r := if s.elseBody.Some? then AnalyzeStmt(s.elseBody.value, b.st) else Outcome(true, b.st);
    Outcome(b.ok && r.ok, r.st)
  }

  lemma {:induction false} IfBranchesSound(s: Stmt, st: ScopeState)
    requires WellFormed(st) && s.If?
    ensures Sound(st, IfBranches(s, st), LabelsOf(s))
    decreases s, 0
  {
    var b := AnalyzeStmt(s.thenBody, st);
    StmtSound(s.thenBody, st);
    WellFormedByKinds(st, b.st);
    if s.elseBody.Some? {
      StmtSound(s.elseBody.value, b.st);
      StmtFrameTrans(st, b.st, AnalyzeStmt(s.elseBody.value, b.st).st, LabelsOf(s.thenBody), LabelsOf(s.elseBody.value));
    }
  }

  lemma {:induction false} LoopSound(s: Stmt, st: ScopeState)
    requires WellFormed(st) && (s.While? || s.DoWhile?)
    ensures Sound(st, AnalyzeLoop(s, st), LabelsOf(s))
    decreases s, 2
  {
    if st.IsGlobalScope() {
      GlobalRejected(st, if s.While? then WhileConstruct else DoWhileConstruct);
    } else {
      var inner := st.AddScope(LoopScope);
      var a := AnalyzeExpr(s.cond, inner);
      ExprSound(s.cond, inner);
      ExprFrameIsStmtFrame(inner, a.st);
      WellFormedByKinds(inner, a.st);
      var b := AnalyzeStmt(s.body, a.st);
      StmtSound(s.body, a.st);
      StmtFrameThen(inner, a.st, b.st, LabelsOf(s.body));
      ScopedFrame(st, inner, LoopScope, b.st, LabelsOf(s.body));
    }
  }

  lemma OptExprSound(e: Option<Expr>, st: ScopeState)
    ensures Sound(st, AnalyzeOptExpr(e, st), NoLabels)
  {
    if e.Some? {
      ExprSound(e.value, st);
      ExprFrameIsStmtFrame(st, AnalyzeExpr(e.value, st).st);
    }
  }

  lemma {:induction false} ForHeadsSound(s: Stmt, st: ScopeState)
    requires WellFormed(st) && s.For?
    ensures Sound(st, AnalyzeForHeads(s, st), if s.init.Some? then LabelsOf(s.init.value) else NoLabels)
    decreases s, 0
  {
    var initCases := if s.init.Some? then LabelsOf(s.init.value) else NoLabels;
    var i := if s.init.Some? then AnalyzeStmt(s.init.value, st) else Outcome(true, st);
    if s.init.Some? {
      StmtSound(s.init.value, st);
    } else {
      ExprFrameIsStmtFrame(st, st);
    }
    var c := AnalyzeOptExpr(s.forCond, i.st);
    OptExprSound(s.forCond, i.st);
    StmtFrameBefore(st, i.st, c.st, initCases);
    var n := AnalyzeOptExpr(s.inc, c.st);
    OptExprSound(s.inc, c.st);
    StmtFrameBefore(st, c.st, n.st, initCases);
  }

  /** The heads and then the body of a for loop, inside its LOOP layer. */
  function ForInner(s: Stmt, st: ScopeState): Outcome
    requires s.For?
  {
    var h := AnalyzeForHeads(s, st);
    var b := AnalyzeStmt(s.body, h.st);
    Outcome(h.ok && b.ok, b.st)
  }

  lemma {:induction false} ForInnerSound(s: Stmt, st: ScopeState)
    requires WellFormed(st) && s.For?
    ensures Sound(st, ForInner(s, st), LabelsOf(s))
    decreases s, 1
  {
    var initCases := if s.init.Some? then LabelsOf(s.init.value) else NoLabels;
    var h := AnalyzeForHeads(s, st);
    ForHeadsSound(s, st);
    WellFormedByKinds(st, h.st);
    StmtSound(s.body, h.st);
    StmtFrameTrans(st, h.st, AnalyzeStmt(s.body, h.st).st, initCases, LabelsOf(s.body));
  }

  lemma {:induction false} ForSound(s: Stmt, st: ScopeState)
    requires WellFormed(st) && s.For?
    ensures Sound(st, AnalyzeFor(s, st), LabelsOf(s))
    decreases s, 2
  {
    if st.IsGlobalScope() {
      GlobalRejected(st, ForConstruct);
    } else {
      var inner := st.AddScope(LoopScope);
      ForInnerSound(s, inner);
      ScopedFrame(st, inner, LoopScope, ForInner(s, inner).st, LabelsOf(s));
    }
  }

  /** The condition, its integer check and the body of a switch, inside its SWITCH layer. */
  function SwitchInner(s: Stmt, st: ScopeState): Outcome
    requires s.Switch?
  {
    var a := AnalyzeExpr(s.cond, st);
    var intOk := IsIntegerType(a.dtype);
    var b := AnalyzeStmt(s.body, if intOk then a.st else a.st.Report(SwitchQuantityNotInteger));
    Outcome(a.ok && intOk && b.ok, b.st)
  }

  lemma {:induction false} SwitchInnerSound(s: Stmt, st: ScopeState)
    requires WellFormed(st) && s.Switch?
    ensures Sound(st, SwitchInner(s, st), LabelsOf(s.body))
    decreases s, 1
  {
    var a := AnalyzeExpr(s.cond, st);
    ExprSound(s.cond, st);
    var st1 := if IsIntegerType(a.dtype) then a.st else a.st.Report(SwitchQuantityNotInteger);
    ReportFrame(a.st, SwitchQuantityNotInteger);
    ExprFrameTrans(st, a.st, st1);
    ExprFrameIsStmtFrame(st, st1);
    WellFormedByKinds(st, st1);
    StmtSound(s.body, st1);
    StmtFrameThen(st, st1, AnalyzeStmt(s.body, st1).st, LabelsOf(s.body));
  }

  lemma {:induction false} SwitchSound(s: Stmt, st: ScopeState)
    requires WellFormed(st) && s.Switch?
    ensures Sound(st, AnalyzeSwitch(s, st), LabelsOf(s))
    decreases s, 2
  {
    if st.IsGlobalScope() {
      GlobalRejected(st, SwitchConstruct);
    } else {
      var inner := st.AddScope(SwitchScope);
      var x := SwitchInner(s, inner);
      assert AnalyzeSwitch(s, st) == Outcome(x.ok, x.st.PopScope());
      SwitchInnerSound(s, inner);
      ScopedFrame(st, inner, SwitchScope, x.st, LabelsOf(s.body));
      assert x.st.PopScope().(functions := st.functions) == x.st.PopScope();
      assert x.st.declareFuncParams == st.declareFuncParams;
    }
  }

  lemma {:induction false} CaseValueSound(s: Stmt, st: ScopeState)
    requires WellFormed(st) && s.CaseLabel? && s.value.Some?
    ensures Sound(st, AnalyzeCaseValue(s, st), LabelsOf(s.body))
    decreases s, 0
  {
    var a := AnalyzeExpr(s.value.value, st);
    ExprSound(s.value.value, st);
    var errs := CaseValueErrors(a.ok, a.constant, a.dtype);
    var st2 := a.st.(errors := a.st.errors + errs);
    assert a.st.errors == st2.errors[..|a.st.errors|];
    ExprFrameTrans(st, a.st, st2);
    ExprFrameIsStmtFrame(st, st2);
    WellFormedByKinds(st, st2);
    StmtSound(s.body, st2);
    StmtFrameThen(st, st2, AnalyzeStmt(s.body, st2).st, LabelsOf(s.body));
  }

  lemma {:induction false} DefaultSound(s: Stmt, st: ScopeState, k: nat, sw: SwitchState)
    requires WellFormed(st) && s.CaseLabel? && s.value.None?
    requires SwitchIn(st.layers) == Some(k) && sw.caseLabelCnt == st.layers[k].switchState.caseLabelCnt
    ensures Sound(st, AnalyzeDefault(s, st, k, sw), Labels(0, true).Plus(LabelsOf(s.body)))
    decreases s, 0
  {
    var st1 := if sw.hasDefaultLabel then st.Report(MultipleDefaultLabels) else st;
    ReportFrame(st, MultipleDefaultLabels);
    ExprFrameIsStmtFrame(st, st1);
    var st2 := st1.SetSwitchState(k, sw.(hasDefaultLabel := true));
    DefaultStep(st1, k, sw);
    StmtFrameThen(st, st1, st2, Labels(0, true));
    WellFormedByKinds(st, st2);
    StmtSound(s.body, st2);
    StmtFrameTrans(st, st2, AnalyzeStmt(s.body, st2).st, Labels(0, true), LabelsOf(s.body));
  }

  lemma {:induction false} CaseSound(s: Stmt, st: ScopeState)
    requires WellFormed(st) && s.CaseLabel?
    ensures Sound(st, AnalyzeCase(s, st), LabelsOf(s))
    decreases s, 2
  {
    match st.GetSwitchScope()
    case None =>
      ReportFrame(st, CaseNotWithinSwitch);
      ExprFrameIsStmtFrame(st, st.Report(CaseNotWithinSwitch));
    case Some(k) =>
      var sw := st.layers[k].switchState;
      var counted := sw.(caseLabelCnt := sw.caseLabelCnt + 1);
      var st1 := st.SetSwitchState(k, counted);
      CaseCountStep(st, k);
      WellFormedByKinds(st, st1);
      SwitchInByKinds(st.layers, st1.layers);
      if s.value.Some? {
        assert AnalyzeCase(s, st) == AnalyzeCaseValue(s, st1);
        CaseValueBranchSound(s, st, st1);
      } else {
        assert AnalyzeCase(s, st) == AnalyzeDefault(s, st1, k, counted);
        DefaultBranchSound(s, st, st1, k, counted);
      }
  }

  /** The `case` branch of CaseSound, once the switch's label count has been bumped. */
  lemma CaseValueBranchSound(s: Stmt, st: ScopeState, st1: ScopeState)
    requires WellFormed(st) && WellFormed(st1) && s.CaseLabel? && s.value.Some?
    requires StmtFrame(st, st1, Labels(1, false)) && st1.errors == st.errors && st1.declareFuncParams == st.declareFuncParams
    ensures Sound(st, AnalyzeCaseValue(s, st1), LabelsOf(s))
    decreases s, 1
  {
    var r := AnalyzeCaseValue(s, st1);
    assert LabelsOf(s) == Labels(1, false).Plus(LabelsOf(s.body));
    CaseValueSound(s, st1);
    StmtFrameTrans(st, st1, r.st, Labels(1, false), LabelsOf(s.body));
    assert |st1.layers| == |Kinds(st1.layers)| == |Kinds(st.layers)| == |st.layers|;
  }

  /** The `default` branch of CaseSound, once the switch's label count has been bumped. */
  lemma DefaultBranchSound(s: Stmt, st: ScopeState, st1: ScopeState, k: nat, sw: SwitchState)
    requires WellFormed(st) && WellFormed(st1) && s.CaseLabel? && s.value.None?
    requires SwitchIn(st1.layers) == Some(k) && sw.caseLabelCnt == st1.layers[k].switchState.caseLabelCnt
    requires StmtFrame(st, st1, Labels(1, false)) && st1.errors == st.errors && st1.declareFuncParams == st.declareFuncParams
    ensures Sound(st, AnalyzeDefault(s, st1, k, sw), LabelsOf(s))
    decreases s, 1
  {
    var r := AnalyzeDefault(s, st1, k, sw);
    var l := Labels(0, true).Plus(LabelsOf(s.body));
    assert LabelsOf(s) == Labels(1, false).Plus(l);
    DefaultSound(s, st1, k, sw);
    assert StmtFrame(st1, r.st, l) && Reported(st1, r.ok, r.st) && FlagKept(st1, r.st);
    StmtFrameTrans(st, st1, r.st, Labels(1, false), l);
    assert |st1.layers| == |Kinds(st1.layers)| == |Kinds(st.layers)| == |st.layers|;
  }

  lemma {:induction false} FunctionSound(s: Stmt, st: ScopeState)
    requires WellFormed(st) && s.FunctionDef?
    ensures Sound(st, AnalyzeFunction(s, st), LabelsOf(s))
    decreases s, 2
  {
    if !st.IsGlobalScope() {
      ReportFrame(st, FunctionDefinitionNotAllowed);
      ExprFrameIsStmtFrame(st, st.Report(FunctionDefinitionNotAllowed));
    } else {
      GlobalHasNoSwitch(st);
      var func := FuncSymbolOf(s.retType, s.name, s.params);
      var d := st.DeclareSymbol(s.name, func);
      var st1 := if d.0 then d.1 else st.Report(FunctionRedeclared(s.name));
      DeclareFrame(st, s.name, func);
      ReportFrame(st, FunctionRedeclared(s.name));
      ExprFrameIsStmtFrame(st, st.Report(FunctionRedeclared(s.name)));
      var st2 := st1.AddScope(FunctionScope).(functions := st1.functions + [func], declareFuncParams := true);
      assert WellFormed(st2) by {
        assert st2.layers[0] == st1.layers[0];
        assert st1.layers[0].kind == Kinds(st1.layers)[0] == Kinds(st.layers)[0];
      }
      var p := AnalyzeParams(s.params, st2);
      ParamsSound(s.params, st2);
      var p' := p.st.(declareFuncParams := false);
      WellFormedByKinds(st2, p');
      var b := AnalyzeBlock(s.fnBody, p');
      BlockSound(s.fnBody, p');
      StmtFrameThen(st2, p', b.st, LabelsOfSeq(s.fnBody));
      ScopedFrame(st1, st2, FunctionScope, b.st, LabelsOfSeq(s.fnBody));
      assert b.st.(functions := DropTop(b.st.functions)).PopScope() == b.st.PopScope().(functions := st1.functions);
      StmtFrameThen(st, st1, b.st.PopScope().(functions := st1.functions), NoLabels);
    }
  }
}
