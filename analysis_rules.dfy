/**
 * The individual legality rules of the analysis pass, each stated about the
 * functions of module Analysis: which node fails, which diagnostic it reports
 * first, and what it leaves in the scope context.
 */
module AnalysisRules {
  import opened Wrappers
  import opened Consts
  import opened Utils
  import opened Ast
  import opened ScopeCtx
  import opened Analysis
  import opened AnalysisProps

  // ---------------------------------------------------------------------------
  // Views of the layers
  // ---------------------------------------------------------------------------

  /** The names declared in every layer, outermost first. */
  function Names(layers: seq<Layer>): seq<set<string>>
  {
    seq(|layers|, i requires 0 <= i < |layers| => layers[i].symbols.Keys)
  }

  /** The initialized declarations recorded on every layer's switch state. */
  function Inits(layers: seq<Layer>): seq<seq<VarDecl>>
  {
    seq(|layers|, i requires 0 <= i < |layers| => layers[i].switchState.initializedVars)
  }

  /** The innermost layer. */
  function Top(st: ScopeState): Layer
    requires |st.layers| > 0
  {
    st.layers[|st.layers| - 1]
  }

  /** The constructs that are refused at global scope, with the name their diagnostic uses. */
  function ConstructOf(s: Stmt): Option<Construct>
  {
    match s
    case Block(_) => Some(BlockConstruct)
    case If(_, _, _) => Some(IfConstruct)
    case While(_, _) => Some(WhileConstruct)
    case DoWhile(_, _) => Some(DoWhileConstruct)
    case For(_, _, _, _) => Some(ForConstruct)
    case Switch(_, _) => Some(SwitchConstruct)
    case _ => None
  }

  // ---------------------------------------------------------------------------
  // Helpers
  // ---------------------------------------------------------------------------

  lemma PlainsKeepSymbol(a: seq<Layer>, b: seq<Layer>, i: nat, name: string)
    requires Plains(a) == Plains(b) && i < |a| && name in a[i].symbols
    ensures i < |b| && name in b[i].symbols && Plain(b[i].symbols[name]) == Plain(a[i].symbols[name])
  {
    assert |b| == |Plains(b)| == |a|;
    assert PlainLayer(a[i]) == Plains(a)[i] == Plains(b)[i] == PlainLayer(b[i]);
    assert name in PlainLayer(a[i]).symbols;
  }

  lemma PlainsKeepViews(a: seq<Layer>, b: seq<Layer>)
    requires Plains(a) == Plains(b)
    ensures Names(a) == Names(b) && Inits(a) == Inits(b)
  {
    assert |b| == |Plains(b)| == |a|;
    forall i | 0 <= i < |a| ensures a[i].symbols.Keys == b[i].symbols.Keys && a[i].switchState == b[i].switchState {
      assert PlainLayer(a[i]) == Plains(a)[i] == Plains(b)[i] == PlainLayer(b[i]);
      assert PlainLayer(a[i]).symbols.Keys == a[i].symbols.Keys;
    }
  }

  lemma {:induction false} LookupByNames(a: seq<Layer>, b: seq<Layer>, name: string)
    requires Names(a) == Names(b)
    ensures LookupIndex(a, name) == LookupIndex(b, name)
    decreases |a|
  {
    assert |a| == |Names(a)| == |b|;
    if |a| > 0 {
      assert a[|a| - 1].symbols.Keys == Names(a)[|a| - 1] == b[|b| - 1].symbols.Keys;
      var a', b' := a[..|a| - 1], b[..|b| - 1];
      assert Names(a') == Names(b') by {
        forall i | 0 <= i < |a'| ensures Names(a')[i] == Names(b')[i] {
          assert Names(a)[i] == Names(b)[i];
        }
      }
      LookupByNames(a', b', name);
    }
  }

  lemma {:induction false} WalksByKinds(a: seq<Layer>, b: seq<Layer>)
    requires Kinds(a) == Kinds(b)
    ensures HasLoopIn(a) == HasLoopIn(b) && HasBreakIn(a) == HasBreakIn(b)
    decreases |a|
  {
    assert |a| == |Kinds(a)| == |b|;
    if |a| > 0 {
      assert a[|a| - 1].kind == Kinds(a)[|a| - 1] == b[|b| - 1].kind;
      var a', b' := a[..|a| - 1], b[..|b| - 1];
      assert Kinds(a') == Kinds(b') by {
        forall i | 0 <= i < |a'| ensures Kinds(a')[i] == Kinds(b')[i] {
          assert Kinds(a)[i] == Kinds(b)[i];
        }
      }
      WalksByKinds(a', b');
    }
  }

  // ---------------------------------------------------------------------------
  // Break, continue, error nodes, global scope
  // ---------------------------------------------------------------------------

  /** break succeeds exactly when a LOOP or SWITCH layer is reached before a FUNCTION layer; it changes nothing but the diagnostics. */
  lemma BreakRule(st: ScopeState)
    ensures var r := AnalyzeStmt(Break, st);
      (r.ok <==> exists i :: 0 <= i < |st.layers| && st.layers[i].kind in {LoopScope, SwitchScope} && NoFunctionAbove(st.layers, i))
      && r.st == (if r.ok then st else st.Report(BreakNotWithinLoopOrSwitch))
  {
  }

  /** continue succeeds exactly when a LOOP layer is reached before a FUNCTION layer; a SWITCH layer does not count. */
  lemma ContinueRule(st: ScopeState)
    ensures var r := AnalyzeStmt(Continue, st);
      (r.ok <==> exists i :: 0 <= i < |st.layers| && st.layers[i].kind == LoopScope && NoFunctionAbove(st.layers, i))
      && r.st == (if r.ok then st else st.Report(ContinueNotWithinLoop))
  {
  }

  /** An error node always fails and reports. */
  lemma ErrorNodeFails(st: ScopeState)
    ensures AnalyzeStmt(ErrorStmt, st) == Outcome(false, st.Report(SyntaxError))
  {
  }

  /** Blocks, ifs, loops and switches at global scope report once and push no scope. */
  lemma GlobalRejection(s: Stmt, st: ScopeState)
    requires st.IsGlobalScope() && ConstructOf(s).Some?
    ensures AnalyzeStmt(s, st) == Outcome(false, st.Report(NotAllowedInGlobal(ConstructOf(s).value)))
  {
  }

  /** The LOOP layer a while pushes makes a break in its body legal: the loop fails exactly when its condition does. */
  lemma BreakInWhileBody(c: Expr, st: ScopeState)
    requires !st.IsGlobalScope()
    ensures AnalyzeStmt(While(c, Break), st).ok == AnalyzeExpr(c, st.AddScope(LoopScope)).ok
  {
    var loop := st.AddScope(LoopScope);
    var a := AnalyzeExpr(c, loop);
    ExprSound(c, loop);
    PlainsDetermine(a.st.layers, loop.layers);
    WalksByKinds(a.st.layers, loop.layers);
    BreakContinueWalk(st);
    assert a.st.HasBreakScope();
    assert AnalyzeStmt(Break, a.st).ok;
    assert AnalyzeStmt(While(c, Break), st) == AnalyzeLoop(While(c, Break), st);
  }

  /** The SWITCH layer a switch pushes does not satisfy continue: a continue in its body is legal exactly when the switch sits in a loop. */
  lemma ContinueInSwitchBody(c: Expr, st: ScopeState)
    requires !st.IsGlobalScope()
    ensures var a := AnalyzeExpr(c, st.AddScope(SwitchScope));
      AnalyzeStmt(Switch(c, Continue), st).ok == (a.ok && IsIntegerType(a.dtype) && st.HasLoopScope())
  {
    var sw := st.AddScope(SwitchScope);
    var a := AnalyzeExpr(c, sw);
    ExprSound(c, sw);
    PlainsDetermine(a.st.layers, sw.layers);
    var st1 := if IsIntegerType(a.dtype) then a.st else a.st.Report(SwitchQuantityNotInteger);
    assert Kinds(st1.layers) == Kinds(sw.layers);
    WalksByKinds(st1.layers, sw.layers);
    BreakContinueWalk(st);
    assert st1.HasLoopScope() == st.HasLoopScope();
    assert AnalyzeStmt(Continue, st1).ok == st.HasLoopScope();
    assert SwitchInner(Switch(c, Continue), sw).ok == (a.ok && IsIntegerType(a.dtype) && st.HasLoopScope());
    assert AnalyzeStmt(Switch(c, Continue), st) == AnalyzeSwitch(Switch(c, Continue), st);
  }

  // ---------------------------------------------------------------------------
  // Blocks
  // ---------------------------------------------------------------------------

  /** A statement sequence is analyzed one statement after the other, whatever the earlier ones returned. */
  lemma {:induction false} SeqAppend(ss1: seq<Stmt>, ss2: seq<Stmt>, st: ScopeState)
    ensures var a := AnalyzeSeq(ss1, st); var b := AnalyzeSeq(ss2, a.st);
      AnalyzeSeq(ss1 + ss2, st) == Outcome(a.ok && b.ok, b.st)
  {
    if ss1 == [] {
      assert ss1 + ss2 == ss2;
    } else {
      assert (ss1 + ss2)[0] == ss1[0] && (ss1 + ss2)[1..] == ss1[1..] + ss2;
      SeqAppend(ss1[1..], ss2, AnalyzeStmt(ss1[0], st).st);
    }
  }

  /** An error node anywhere in a statement sequence is reported, even after earlier failures. */
  lemma {:induction false} SeqReportsErrorNode(ss: seq<Stmt>, st: ScopeState)
    requires WellFormed(st) && ErrorStmt in ss
    ensures !AnalyzeSeq(ss, st).ok && SyntaxError in AnalyzeSeq(ss, st).st.errors
  {
    var a := AnalyzeStmt(ss[0], st);
    StmtSound(ss[0], st);
    WellFormedByKinds(st, a.st);
    var r := AnalyzeSeq(ss[1..], a.st);
    SeqSound(ss[1..], a.st);
    if ss[0] == ErrorStmt {
      assert a.st.errors[|st.errors|] == SyntaxError;
      assert r.st.errors[|st.errors|] == SyntaxError;
    } else {
      assert ErrorStmt in ss[1..];
      SeqReportsErrorNode(ss[1..], a.st);
    }
  }

  // ---------------------------------------------------------------------------
  // Function definitions
  // ---------------------------------------------------------------------------

  /** Outside global scope a function definition reports and changes nothing else. */
  lemma FunctionOutsideGlobal(s: Stmt, st: ScopeState)
    requires s.FunctionDef? && !st.IsGlobalScope()
    ensures AnalyzeStmt(s, st) == Outcome(false, st.Report(FunctionDefinitionNotAllowed))
  {
  }

  /** The state in which a function's parameters are analyzed. */
  function ParamState(s: Stmt, st: ScopeState): ScopeState
    requires s.FunctionDef?
  {
    var func := FuncSymbolOf(s.retType, s.name, s.params);
    var d := st.DeclareSymbol(s.name, func);
    var st1 := if d.0 then d.1 else st.Report(FunctionRedeclared(s.name));
    st1.AddScope(FunctionScope).(functions := st1.functions + [func], declareFuncParams := true)
  }

  lemma ParamStateShape(s: Stmt, st: ScopeState)
    requires WellFormed(st) && st.IsGlobalScope() && s.FunctionDef?
    ensures var p := ParamState(s, st);
      WellFormed(p) && !p.IsGlobalScope() && p.declareFuncParams && Grows(st.errors, p.errors)
  {
    var func := FuncSymbolOf(s.retType, s.name, s.params);
    DeclareFrame(st, s.name, func);
  }

  /** A redeclared function fails and reports the redeclaration first, and its parameters and body are still analyzed: an error node in the body is reported too. */
  lemma FunctionRedeclaredRule(s: Stmt, st: ScopeState)
    requires WellFormed(st) && st.IsGlobalScope() && s.FunctionDef? && s.name in st.layers[0].symbols
    ensures var r := AnalyzeStmt(s, st);
      !r.ok && |r.st.errors| > |st.errors| && r.st.errors[|st.errors|] == FunctionRedeclared(s.name)
  {
    var p := ParamState(s, st);
    assert p.errors == st.errors + [FunctionRedeclared(s.name)];
    var pr := AnalyzeParams(s.params, p);
    ParamsSound(s.params, p);
    var p' := pr.st.(declareFuncParams := false);
    ParamStateShape(s, st);
    WellFormedByKinds(p, p');
    BlockSound(s.fnBody, p');
    var b := AnalyzeBlock(s.fnBody, p');
    assert b.st.errors[..|p.errors|] == p.errors;
    var r := AnalyzeFunction(s, st);
    assert !r.ok && r.st.errors == b.st.errors;
    assert AnalyzeStmt(s, st) == r;
  }

  /** Declared or not, a function's body is analyzed. */
  lemma FunctionBodyAnalyzed(s: Stmt, st: ScopeState)
    requires WellFormed(st) && st.IsGlobalScope() && s.FunctionDef? && ErrorStmt in s.fnBody
    ensures var r := AnalyzeStmt(s, st); !r.ok && SyntaxError in r.st.errors
  {
    var p := ParamState(s, st);
    ParamStateShape(s, st);
    var pr := AnalyzeParams(s.params, p);
    ParamsSound(s.params, p);
    var p' := pr.st.(declareFuncParams := false);
    WellFormedByKinds(p, p');
    var inner := p'.AddScope(BlockScope);
    assert WellFormed(inner) by {
      assert inner.layers[0] == p'.layers[0];
    }
    assert |p'.layers| == |Kinds(p'.layers)| == |p.layers| == 2;
    SeqReportsErrorNode(s.fnBody, inner);
    var sq := AnalyzeSeq(s.fnBody, inner);
    var b := AnalyzeBlock(s.fnBody, p');
    assert b == Outcome(sq.ok, sq.st.PopScope());
    assert !b.ok && SyntaxError in b.st.errors;
    var r := AnalyzeFunction(s, st);
    assert r.st.errors == b.st.errors;
    assert AnalyzeStmt(s, st) == r;
  }

  /** declareFuncParams is false once a function definition has been analyzed. */
  lemma FunctionClearsFlag(s: Stmt, st: ScopeState)
    requires WellFormed(st) && st.IsGlobalScope() && s.FunctionDef?
    ensures !AnalyzeStmt(s, st).st.declareFuncParams
  {
    var p := ParamState(s, st);
    ParamStateShape(s, st);
    var pr := AnalyzeParams(s.params, p);
    ParamsSound(s.params, p);
    var p' := pr.st.(declareFuncParams := false);
    WellFormedByKinds(p, p');
    BlockSound(s.fnBody, p');
  }

  /** While parameters are analyzed the flag stays set, so a parameter with a default value is reported. */
  lemma {:induction false} ParamsReportDefaults(ps: seq<VarDecl>, st: ScopeState, i: nat)
    requires st.declareFuncParams && !st.IsGlobalScope() && i < |ps| && ps[i].value.Some?
    ensures var r := AnalyzeParams(ps, st); !r.ok && DefaultParameter in r.st.errors
  {
    var a := AnalyzeVarDecl(ps[0], st);
    VarDeclSound(ps[0], st);
    var r := AnalyzeParams(ps[1..], a.st);
    ParamsSound(ps[1..], a.st);
    if i == 0 {
      DeclFlagRules(ps[0], st);
      assert DefaultParameter in a.st.errors;
      assert a.st.errors == r.st.errors[..|a.st.errors|];
      assert forall x :: x in a.st.errors ==> x in r.st.errors;
    } else {
      assert |a.st.layers| == |Kinds(a.st.layers)| == |st.layers|;
      ParamsReportDefaults(ps[1..], a.st, i - 1);
    }
  }

  /** A function with a defaulted parameter fails with DefaultParameter among its diagnostics. */
  lemma FunctionRejectsDefaults(s: Stmt, st: ScopeState, i: nat)
    requires WellFormed(st) && st.IsGlobalScope() && s.FunctionDef? && i < |s.params| && s.params[i].value.Some?
    ensures var r := AnalyzeStmt(s, st); !r.ok && DefaultParameter in r.st.errors
  {
    var p := ParamState(s, st);
    ParamStateShape(s, st);
    ParamsReportDefaults(s.params, p, i);
    var pr := AnalyzeParams(s.params, p);
    ParamsSound(s.params, p);
    var p' := pr.st.(declareFuncParams := false);
    WellFormedByKinds(p, p');
    var b := AnalyzeBlock(s.fnBody, p');
    BlockSound(s.fnBody, p');
    assert forall x :: x in pr.st.errors ==> x in b.st.errors by {
      assert pr.st.errors == b.st.errors[..|pr.st.errors|];
    }
  }

  // ---------------------------------------------------------------------------
  // Variable declarations
  // ---------------------------------------------------------------------------

  /** The declareSymbol stage: it succeeds exactly for a non-void type and a name not yet in the innermost layer. */
  lemma DeclareVarRule(d: VarDecl, st: ScopeState)
    ensures DeclareVar(d, st).ok <==> d.dtype != Void && |st.layers| > 0 && d.name !in Top(st).symbols
    ensures !DeclareVar(d, st).ok ==> Names(DeclareVar(d, st).st.layers) == Names(st.layers)
  {
  }

  /** What the later stages of a declaration keep: the names, the switch records and the declareFuncParams flag; diagnostics only grow. */
  lemma LaterStagesKeep(d: VarDecl, o: Outcome)
    ensures var i := InitializeVar(d, o);
      Names(i.st.layers) == Names(o.st.layers) && Inits(i.st.layers) == Inits(o.st.layers)
      && Kinds(i.st.layers) == Kinds(o.st.layers)
      && i.st.declareFuncParams == o.st.declareFuncParams && Grows(o.st.errors, i.st.errors)
      && (forall j, n | 0 <= j < |o.st.layers| && n in o.st.layers[j].symbols && o.st.layers[j].symbols[n].VarSym? ::
            n in i.st.layers[j].symbols && i.st.layers[j].symbols[n] == o.st.layers[j].symbols[n])
  {
    if d.value.Some? {
      var pre := o.st.(initializeVar := true);
      var v := AnalyzeExpr(d.value.value, pre);
      ExprSound(d.value.value, pre);
      PlainsKeepViews(pre.layers, v.st.layers);
      PlainsDetermine(pre.layers, v.st.layers);
      forall j, n | 0 <= j < |o.st.layers| && n in o.st.layers[j].symbols && o.st.layers[j].symbols[n].VarSym?
        ensures n in v.st.layers[j].symbols && v.st.layers[j].symbols[n] == o.st.layers[j].symbols[n]
      {
        PlainsKeepSymbol(pre.layers, v.st.layers, j, n);
      }
    }
  }

  /** A void declaration fails with DeclaredVoid first and declares nothing. */
  lemma VoidDeclRule(d: VarDecl, st: ScopeState)
    requires d.dtype == Void
    ensures var r := AnalyzeVarDecl(d, st);
      !r.ok && |r.st.errors| > |st.errors| && r.st.errors[|st.errors|] == DeclaredVoid(d.name)
      && Names(r.st.layers) == Names(st.layers)
  {
    var o1 := DeclareVar(d, st);
    LaterStagesKeep(d, o1);
  }

  /** A name already in the innermost layer fails with VariableRedeclared first and declares nothing. */
  lemma RedeclaredVarRule(d: VarDecl, st: ScopeState)
    requires d.dtype != Void && |st.layers| > 0 && d.name in Top(st).symbols
    ensures var r := AnalyzeVarDecl(d, st);
      !r.ok && |r.st.errors| > |st.errors| && r.st.errors[|st.errors|] == VariableRedeclared(d.name)
      && Names(r.st.layers) == Names(st.layers)
  {
    var o1 := DeclareVar(d, st);
    LaterStagesKeep(d, o1);
  }

  /** Otherwise the name is added to the innermost layer, bound to the declared variable, and no other layer changes its names. */
  lemma DeclaredVarRule(d: VarDecl, st: ScopeState)
    requires d.dtype != Void && |st.layers| > 0 && d.name !in Top(st).symbols
    ensures var r := AnalyzeVarDecl(d, st); var n := |st.layers|;
      Names(r.st.layers) == Names(st.layers)[n - 1 := Names(st.layers)[n - 1] + {d.name}]
      && n == |r.st.layers| && d.name in r.st.layers[n - 1].symbols
      && r.st.layers[n - 1].symbols[d.name] == VarSym(d.dtype, d.isConst)
  {
    var o1 := DeclareVar(d, st);
    var n := |st.layers|;
    assert |o1.st.layers| == n;
    assert o1.st.layers[n - 1].symbols == st.layers[n - 1].symbols[d.name := VarSym(d.dtype, d.isConst)];
    assert Names(o1.st.layers) == Names(st.layers)[n - 1 := Names(st.layers)[n - 1] + {d.name}] by {
      forall i | 0 <= i < n ensures Names(o1.st.layers)[i] == Names(st.layers)[n - 1 := Names(st.layers)[n - 1] + {d.name}][i] {
      }
    }
    LaterStagesKeep(d, o1);
    var o2 := InitializeVar(d, o1);
    assert |o2.st.layers| == |Names(o2.st.layers)| == n;
    assert d.name in o2.st.layers[n - 1].symbols && o2.st.layers[n - 1].symbols[d.name] == VarSym(d.dtype, d.isConst);
    var o3 := CheckDeclFlags(d, o2);
    assert o3.st.layers == o2.st.layers;
    var r := RecordInSwitch(d, o3);
    var k := o3.st.GetSwitchScope();
    if k.Some? && d.value.Some? {
      var sw := o3.st.layers[k.value].switchState;
      assert r.st.layers == o3.st.layers[k.value := o3.st.layers[k.value].(switchState := sw.(initializedVars := sw.initializedVars + [d]))];
      assert Names(r.st.layers) == Names(o3.st.layers);
    }
  }

  /** initializeVar is cleared after an initializer and untouched without one. */
  lemma InitializerFlagRule(d: VarDecl, st: ScopeState)
    ensures AnalyzeVarDecl(d, st).st.initializeVar == (if d.value.Some? then false else st.initializeVar)
  {
  }

  /** A default value on a parameter, and a const without initializer outside a parameter list, fail with their diagnostic. */
  lemma DeclFlagRules(d: VarDecl, st: ScopeState)
    ensures var r := AnalyzeVarDecl(d, st);
      (st.declareFuncParams && d.value.Some? ==> !r.ok && DefaultParameter in r.st.errors)
      && (d.isConst && d.value.None? && !st.declareFuncParams ==> !r.ok && UninitializedConst(d.name) in r.st.errors)
  {
    var o1 := DeclareVar(d, st);
    LaterStagesKeep(d, o1);
    var o2 := InitializeVar(d, o1);
    var o3 := CheckDeclFlags(d, o2);
    assert o1.st.declareFuncParams == st.declareFuncParams;
    RecordInSwitchStep(d, o3);
  }

  /** Inside a switch an initialized declaration is recorded on that switch, after the earlier ones; nothing is recorded elsewhere. */
  lemma RecordInSwitchRule(d: VarDecl, st: ScopeState)
    ensures var r := AnalyzeVarDecl(d, st); var k := SwitchIn(st.layers);
      Inits(r.st.layers) ==
        if k.Some? && d.value.Some? then Inits(st.layers)[k.value := Inits(st.layers)[k.value] + [d]] else Inits(st.layers)
  {
    var o1 := DeclareVar(d, st);
    assert Inits(o1.st.layers) == Inits(st.layers) && Kinds(o1.st.layers) == Kinds(st.layers);
    LaterStagesKeep(d, o1);
    var o2 := InitializeVar(d, o1);
    var o3 := CheckDeclFlags(d, o2);
    SwitchInByKinds(st.layers, o3.st.layers);
    var k := SwitchIn(st.layers);
    if k.Some? && d.value.Some? {
      var sw := o3.st.layers[k.value].switchState;
      assert sw.initializedVars == Inits(o3.st.layers)[k.value];
      var r := RecordInSwitch(d, o3);
      assert Inits(r.st.layers) == Inits(o3.st.layers)[k.value := sw.initializedVars + [d]];
    }
  }

  // ---------------------------------------------------------------------------
  // Case and default labels, switches
  // ---------------------------------------------------------------------------

  /** A case label with no enclosing switch reports and analyzes nothing. */
  lemma CaseOutsideSwitch(s: Stmt, st: ScopeState)
    requires s.CaseLabel? && SwitchIn(st.layers).None?
    ensures AnalyzeStmt(s, st) == Outcome(false, st.Report(CaseNotWithinSwitch))
  {
  }

  /** The diagnostics of a valued case: none when its analysis failed, else at most one of the two. */
  lemma CaseValueErrorsRule(analyzed: bool, constant: bool, t: DataType)
    ensures var r := CaseValueErrors(analyzed, constant, t);
      |r| <= 1
      && (r == [ConstantExpressionRequired] <==> analyzed && !constant)
      && (r == [CaseQuantityNotInteger] <==> analyzed && constant && !IsIntegerType(t))
      && (r == [] <==> !analyzed || (constant && IsIntegerType(t)))
  {
  }

  /** Every case or default label adds exactly one to its switch's count, and a default label sets the switch's default flag. */
  lemma CaseCounted(s: Stmt, st: ScopeState, k: nat)
    requires WellFormed(st) && s.CaseLabel? && SwitchIn(st.layers) == Some(k)
    ensures var r := AnalyzeStmt(s, st); var before := st.layers[k].switchState;
      k < |r.st.layers|
      && r.st.layers[k].switchState.caseLabelCnt == before.caseLabelCnt + 1 + LabelsOf(s.body).cases
      && (s.value.None? ==> r.st.layers[k].switchState.hasDefaultLabel)
      && r.st.layers[k].switchState.hasDefaultLabel == (before.hasDefaultLabel || s.value.None? || LabelsOf(s.body).hasDefault)
  {
    var r := AnalyzeStmt(s, st);
    StmtSound(s, st);
    assert |Counts(st.layers)| == |st.layers|;
    assert Counts(r.st.layers)[k] == Counts(st.layers)[k].Plus(LabelsOf(s));
  }

  /** A second default label in one switch fails and reports MultipleDefaultLabels first. */
  lemma SecondDefaultRule(s: Stmt, st: ScopeState, k: nat)
    requires WellFormed(st) && s.CaseLabel? && s.value.None? && SwitchIn(st.layers) == Some(k)
    requires st.layers[k].switchState.hasDefaultLabel
    ensures var r := AnalyzeStmt(s, st);
      !r.ok && |r.st.errors| > |st.errors| && r.st.errors[|st.errors|] == MultipleDefaultLabels
  {
    var sw := st.layers[k].switchState;
    var counted := sw.(caseLabelCnt := sw.caseLabelCnt + 1);
    var st1 := st.SetSwitchState(k, counted);
    CaseCountStep(st, k);
    WellFormedByKinds(st, st1);
    SwitchInByKinds(st.layers, st1.layers);
    assert st1.errors == st.errors;
    DefaultAgainReported(s, st1, k, counted);
    assert AnalyzeStmt(s, st) == AnalyzeCase(s, st) == AnalyzeDefault(s, st1, k, counted);
  }

  /** A default label analyzed when its switch already has one fails, and MultipleDefaultLabels is the first diagnostic it adds. */
  lemma DefaultAgainReported(s: Stmt, st1: ScopeState, k: nat, sw: SwitchState)
    requires WellFormed(st1) && s.CaseLabel? && s.value.None? && SwitchIn(st1.layers) == Some(k)
    requires sw.hasDefaultLabel
    ensures var r := AnalyzeDefault(s, st1, k, sw);
      !r.ok && |r.st.errors| > |st1.errors| && r.st.errors[|st1.errors|] == MultipleDefaultLabels
  {
    var st2 := st1.Report(MultipleDefaultLabels);
    var st3 := st2.SetSwitchState(k, sw.(hasDefaultLabel := true));
    assert st3.errors == st1.errors + [MultipleDefaultLabels];
    ReportFrame(st1, MultipleDefaultLabels);
    ExprFrameIsStmtFrame(st1, st2);
    WellFormedByKinds(st1, st2);
    assert |st2.layers| == |Kinds(st2.layers)| == |st1.layers|;
    WellFormedByKinds(st2, st3);
    var b := AnalyzeStmt(s.body, st3);
    StmtSound(s.body, st3);
    assert b.st.errors[|st1.errors|] == st3.errors[|st1.errors|] == MultipleDefaultLabels;
    assert AnalyzeDefault(s, st1, k, sw) == Outcome(false, b.st);
  }

  /** A switch whose condition is not of integer type fails and reports it, whether or not the condition's own analysis failed. */
  lemma SwitchQuantityRule(s: Stmt, st: ScopeState)
    requires WellFormed(st) && !st.IsGlobalScope() && s.Switch?
    requires !IsIntegerType(AnalyzeExpr(s.cond, st.AddScope(SwitchScope)).dtype)
    ensures var r := AnalyzeStmt(s, st); !r.ok && SwitchQuantityNotInteger in r.st.errors
  {
    var inner := st.AddScope(SwitchScope);
    var a := AnalyzeExpr(s.cond, inner);
    ExprSound(s.cond, inner);
    var st1 := a.st.Report(SwitchQuantityNotInteger);
    PlainsDetermine(a.st.layers, inner.layers);
    WellFormedByKinds(inner, st1);
    var b := AnalyzeStmt(s.body, st1);
    StmtSound(s.body, st1);
    assert b.st.errors[|a.st.errors|] == st1.errors[|a.st.errors|] == SwitchQuantityNotInteger;
    assert SwitchQuantityNotInteger in b.st.errors;
    var r := SwitchInner(s, inner);
    assert r == Outcome(false, b.st);
    assert AnalyzeStmt(s, st) == AnalyzeSwitch(s, st) == Outcome(false, r.st.PopScope());
  }

  /** A switch's own state ends up counting exactly the labels of its body: their number, and whether one was a default label. */
  lemma SwitchOwnsItsLabels(s: Stmt, st: ScopeState)
    requires WellFormed(st) && s.Switch?
    ensures var inner := st.AddScope(SwitchScope); var r := SwitchInner(s, inner); var n := |st.layers|;
      n < |r.st.layers|
      && r.st.layers[n].switchState.caseLabelCnt == LabelsOf(s.body).cases
      && r.st.layers[n].switchState.hasDefaultLabel == LabelsOf(s.body).hasDefault
  {
    var inner := st.AddScope(SwitchScope);
    assert WellFormed(inner) by {
      assert inner.layers[0] == st.layers[0];
    }
    SwitchInnerSound(s, inner);
    SwitchInPush(st.layers, SwitchScope);
    var r := SwitchInner(s, inner);
    var n := |st.layers|;
    assert |Counts(inner.layers)| == n + 1;
    assert Counts(inner.layers)[n] == NoLabels;
    assert Counts(r.st.layers)[n] == NoLabels.Plus(LabelsOf(s.body));
  }

  // ---------------------------------------------------------------------------
  // Calls
  // ---------------------------------------------------------------------------

  /** The four callee failures, each characterised, in their priority order. */
  lemma CalleeErrorRule(sym: Option<Symbol>, name: string, argCount: nat)
    ensures var r := CalleeError(sym, name, argCount);
      (r == Some(NotDeclared(name)) <==> sym.None?)
      && (r == Some(NotAFunction(name)) <==> sym.Some? && sym.value.VarSym?)
      && (r == Some(TooManyArguments(name)) <==> sym.Some? && sym.value.FuncSym? && argCount > |sym.value.params|)
      && (r == Some(TooFewArguments(name)) <==> sym.Some? && sym.value.FuncSym? && argCount < |sym.value.params|)
      && (r.None? <==> sym.Some? && sym.value.FuncSym? && argCount == |sym.value.params|)
  {
  }

  /** A failing callee check is the first diagnostic of the call and the call fails; the callee's type is taken only on an exact argument count. */
  lemma CallRule(e: Expr, st: ScopeState)
    requires e.node.Call?
    ensures var r := AnalyzeExpr(e, st); var sym := st.GetSymbol(e.node.callee);
      var head := CalleeError(sym, e.node.callee, |e.node.args|);
      (head.Some? ==> !r.ok && |r.st.errors| > |st.errors| && r.st.errors[|st.errors|] == head.value && r.dtype == ErrorType)
      && (head.None? ==> sym.Some? && sym.value.FuncSym? && |e.node.args| == |sym.value.params| && r.dtype == sym.value.dtype)
  {
    var name := e.node.callee;
    var sym := st.GetSymbol(name);
    var head := CalleeError(sym, name, |e.node.args|);
    var isFunc := sym.Some? && sym.value.FuncSym?;
    var st1 := if head.Some? then st.Report(head.value) else st;
    var loop := ArgsLoop(e, 0, isFunc, head.None?, st1);
    ArgsSound(e, 0, isFunc, head.None?, st1);
    if !loop.aborted && loop.ok {
      MarkUsedFrame(loop.st, name);
    }
  }

  /** A call that succeeds leaves its callee marked used; a call that fails marks nothing beyond what its arguments did. */
  lemma CallMarksUsed(e: Expr, st: ScopeState)
    requires e.node.Call?
    ensures var r := AnalyzeExpr(e, st); var sym := r.st.GetSymbol(e.node.callee);
      r.ok ==> sym.Some? && sym.value.FuncSym? && sym.value.used
    ensures var r := AnalyzeExpr(e, st); var s0 := st.GetSymbol(e.node.callee);
      var head := CalleeError(s0, e.node.callee, |e.node.args|);
      var loop := ArgsLoop(e, 0, s0.Some? && s0.value.FuncSym?, head.None?, if head.Some? then st.Report(head.value) else st);
      !r.ok ==> r.st == loop.st
  {
    var name := e.node.callee;
    var sym := st.GetSymbol(name);
    var head := CalleeError(sym, name, |e.node.args|);
    var isFunc := sym.Some? && sym.value.FuncSym?;
    var st1 := if head.Some? then st.Report(head.value) else st;
    var loop := ArgsLoop(e, 0, isFunc, head.None?, st1);
    ArgsSound(e, 0, isFunc, head.None?, st1);
    if !loop.aborted && loop.ok && head.None? {
      PlainsKeepViews(st.layers, loop.st.layers);
      LookupByNames(st.layers, loop.st.layers, name);
      var i := LookupIndex(st.layers, name).value;
      PlainsKeepSymbol(st.layers, loop.st.layers, i, name);
      var m := loop.st.MarkUsed(name);
      MarkUsedFrame(loop.st, name);
      PlainsKeepViews(loop.st.layers, m.layers);
      LookupByNames(loop.st.layers, m.layers, name);
    }
  }

  // ---------------------------------------------------------------------------
  // The argument loop of FunctionCallNode::analyze
  // ---------------------------------------------------------------------------

  /** Every argument from i up to j analyzed in turn, each in the state the previous one left, results joined. */
  function ArgsFrom(e: Expr, i: nat, j: nat, st: ScopeState): Outcome
    requires e.node.Call? && i <= j <= |e.node.args|
    decreases j - i
  {
    if i == j then Outcome(true, st)
    else
      var a := AnalyzeExpr(e.node.args[i], st);
      var rest := ArgsFrom(e, i + 1, j, a.st);
      Outcome(a.ok && rest.ok, rest.st)
  }

  /** The first argument from i on that analyzes successfully but has a type no parameter accepts. */
  function FirstUnconvertible(e: Expr, i: nat, isFunc: bool, st: ScopeState): (k: Option<nat>)
    requires e.node.Call? && i <= |e.node.args|
    ensures k.Some? ==> i <= k.value < |e.node.args|
    decreases |e.node.args| - i
  {
    if i == |e.node.args| then None
    else
      var a := AnalyzeExpr(e.node.args[i], st);
      if a.ok && ((isFunc && a.dtype == Void) || a.dtype == FuncPtr) then Some(i)
      else FirstUnconvertible(e, i + 1, isFunc, a.st)
  }

  /**
   * The argument loop analyzes every argument, failing ones included, up to the
   * first one of unconvertible type. Without one, it ends with `ret` joined with
   * every argument's result. With one, it stops there: the arguments after it
   * are not analyzed and InvalidConversion is the last diagnostic.
   */
  lemma {:induction false} ArgsLoopRule(e: Expr, i: nat, isFunc: bool, ret: bool, st: ScopeState)
    requires e.node.Call? && i <= |e.node.args|
    ensures var r := ArgsLoop(e, i, isFunc, ret, st); var k := FirstUnconvertible(e, i, isFunc, st);
      (k.None? ==> var w := ArgsFrom(e, i, |e.node.args|, st); r == ArgsOutcome(ret && w.ok, false, w.st))
      && (k.Some? ==>
            var p := ArgsFrom(e, i, k.value, st); var a := AnalyzeExpr(e.node.args[k.value], p.st);
            r == ArgsOutcome(false, true, a.st.Report(InvalidConversion)))
    decreases |e.node.args| - i
  {
    if i < |e.node.args| {
      var a := AnalyzeExpr(e.node.args[i], st);
      if a.ok && ((isFunc && a.dtype == Void) || a.dtype == FuncPtr) {
        assert ArgsFrom(e, i, i, st) == Outcome(true, st);
      } else {
        ArgsLoopRule(e, i + 1, isFunc, ret && a.ok, a.st);
        var k := FirstUnconvertible(e, i + 1, isFunc, a.st);
        if k.Some? {
          assert ArgsFrom(e, i, k.value, st).st == ArgsFrom(e, i + 1, k.value, a.st).st;
        }
      }
    }
  }

  /** A bare expression statement is refused at global scope unless an initializer is being analyzed; below global scope it succeeds exactly when its expression does. */
  lemma ExprStmtRule(e: Expr, st: ScopeState)
    ensures st.IsGlobalScope() && !st.initializeVar ==>
      AnalyzeStmt(ExprStmt(e), st) == Outcome(false, st.Report(NotAllowedInGlobal(ExpressionConstruct)))
    ensures !st.IsGlobalScope() ==> AnalyzeStmt(ExprStmt(e), st).ok == AnalyzeExpr(e, st).ok
  {
  }
}
