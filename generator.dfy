/**
 * The `generateQuad` methods of the statement nodes, written as the nodes
 * write them: they take labels from the one GenerationContext object, push and
 * pop its break and continue stacks, and append instructions to the code in
 * the order the nodes emit them. Each method is proved to return exactly the
 * code, and to leave exactly the context, that the matching function of module
 * Generation computes from the context it started with.
 */
module Generator {
  import opened Consts
  import opened Ast
  import opened Quads
  import opened ExprGen
  import opened GenCtx
  import opened ScopeCtx
  import G = Generation

  /** A variable declaration's code, read off the declareFuncParams flag. */
  method GenerateDecl(d: VarDecl, ctx: GenerationContext) returns (code: seq<Quad>)
    requires G.DeclGenerable(d)
    ensures code == G.DeclCode(d, ctx.declareFuncParams)
  {
    if ctx.declareFuncParams {
      code := [Plain("POP", Name(d.name))];
    } else if d.value.Some? {
      code := GenerateExpr(d.value.value);
      code := code + [Plain("POP", Name(d.name))];
    } else {
      code := [];
    }
  }

  method GenerateStmt(s: Stmt, ctx: GenerationContext) returns (code: seq<Quad>)
    requires G.GenerableIn(s, ctx.Snapshot())
    modifies ctx
    ensures G.GenOut(code, ctx.Snapshot()) == G.GenStmt(s, old(ctx.Snapshot()))
    decreases s, 2
  {
    match s
    case Block(ss) =>
      code := GenerateBlock(ss, ctx);
    case Decl(d) =>
      code := GenerateDecl(d, ctx);
    case If(_, _, _) =>
      code := GenerateIf(s, ctx);
    case While(_, _) =>
      code := GenerateWhile(s, ctx);
    case DoWhile(_, _) =>
      code := GenerateDoWhile(s, ctx);
    case For(_, _, _, _) =>
      code := GenerateFor(s, ctx);
    case Switch(_, _) =>
      code := GenerateSwitch(s, ctx);
    case CaseLabel(_, _) =>
      code := GenerateCase(s, ctx);
    case Break =>
      code := [Plain("JMP", LabelRef(G.Top(ctx.breakLabels)))];
    case Continue =>
      code := [Plain("JMP", LabelRef(G.Top(ctx.continueLabels)))];
    case FunctionDef(_, _, _, _) =>
      code := GenerateFunction(s, ctx);
    case ErrorStmt =>
      code := [];
    case ExprStmt(e) =>
      code := GenerateExpr(e);
  }

  /** A block's statements, one after the other in one context. */
  method GenerateBlock(ss: seq<Stmt>, ctx: GenerationContext) returns (code: seq<Quad>)
    requires G.AllGenerableIn(ss, ctx.Snapshot())
    modifies ctx
    ensures G.GenOut(code, ctx.Snapshot()) == G.GenSeq(ss, old(ctx.Snapshot()))
    decreases ss, 0
  {
    code := [];
    var i := 0;
    while i < |ss|
      invariant 0 <= i <= |ss|
      invariant G.Restored(old(ctx.Snapshot()), ctx.Snapshot())
      invariant G.AllGenerableIn(ss[i..], ctx.Snapshot())
      invariant G.GenSeq(ss, old(ctx.Snapshot()))
             == G.GenOut(code + G.GenSeq(ss[i..], ctx.Snapshot()).code, G.GenSeq(ss[i..], ctx.Snapshot()).st)
    {
      ghost var g := ctx.Snapshot();
      assert ss[i..][0] == ss[i] && ss[i..][1..] == ss[i + 1..];
      ghost var a := G.GenStmt(ss[i], g);
      ghost var rest := G.GenSeq(ss[i + 1..], a.st);
      assert G.GenSeq(ss[i..], g) == G.GenOut(a.code + rest.code, rest.st);
      var c := GenerateStmt(ss[i], ctx);
      assert c == a.code && ctx.Snapshot() == a.st;
      assert code + (c + rest.code) == (code + c) + rest.code;
      code := code + c;
      i := i + 1;
    }
    assert ss[i..] == [];
  }

  method GenerateIf(s: Stmt, ctx: GenerationContext) returns (code: seq<Quad>)
    requires s.If? && G.GenerableIn(s, ctx.Snapshot())
    modifies ctx
    ensures G.GenOut(code, ctx.Snapshot()) == G.GenIf(s, old(ctx.Snapshot()))
    decreases s, 1
  {
    var l1 := ctx.NewLabel();
    code := GenerateExpr(s.cond);
    code := code + [Typed(Jz, s.cond.ty, LabelRef(l1))];
    var t := GenerateStmt(s.thenBody, ctx);
    code := code + t;
    if s.elseBody.Some? {
      var l2 := ctx.NewLabel();
      code := code + [Typed(Jmp, ErrorType, LabelRef(l2)), LabelDef(l1)];
      var el := GenerateStmt(s.elseBody.value, ctx);
      code := code + el + [LabelDef(l2)];
    } else {
      code := code + [LabelDef(l1)];
    }
  }

  /** A loop body between `breakLabels.push(brk); continueLabels.push(cont)` and the two pops. */
  method GenerateLoopBody(body: Stmt, brk: nat, cont: nat, ctx: GenerationContext) returns (code: seq<Quad>)
    requires G.GenerableIn(body, G.PushTargets(ctx.Snapshot(), brk, cont))
    modifies ctx
    ensures var b := G.GenStmt(body, G.PushTargets(old(ctx.Snapshot()), brk, cont));
      code == b.code && ctx.Snapshot() == G.PopTargets(b.st)
    decreases body, 3
  {
    ctx.breakLabels := ctx.breakLabels + [brk];
    ctx.continueLabels := ctx.continueLabels + [cont];
    code := GenerateStmt(body, ctx);
    ctx.breakLabels := DropTop(ctx.breakLabels);
    ctx.continueLabels := DropTop(ctx.continueLabels);
  }

  method GenerateWhile(s: Stmt, ctx: GenerationContext) returns (code: seq<Quad>)
    requires s.While? && G.GenerableIn(s, ctx.Snapshot())
    modifies ctx
    ensures G.GenOut(code, ctx.Snapshot()) == G.GenWhile(s, old(ctx.Snapshot()))
    decreases s, 1
  {
    var l1 := ctx.NewLabel();
    var l2 := ctx.NewLabel();
    code := [LabelDef(l1)];
    var c := GenerateExpr(s.cond);
    code := code + c + [Plain("JZ", LabelRef(l2))];
    var b := GenerateLoopBody(s.body, l2, l1, ctx);
    code := code + b + [Plain("JMP", LabelRef(l1)), LabelDef(l2)];
  }

  method GenerateDoWhile(s: Stmt, ctx: GenerationContext) returns (code: seq<Quad>)
    requires s.DoWhile? && G.GenerableIn(s, ctx.Snapshot())
    modifies ctx
    ensures G.GenOut(code, ctx.Snapshot()) == G.GenDoWhile(s, old(ctx.Snapshot()))
    decreases s, 1
  {
    var l1 := ctx.NewLabel();
    var l2 := ctx.NewLabel();
    var l3 := ctx.NewLabel();
    code := [LabelDef(l1)];
    var b := GenerateLoopBody(s.body, l3, l2, ctx);
    code := code + b + [LabelDef(l2)];
    var c := GenerateExpr(s.cond);
    code := code + c + [Plain("JNZ", LabelRef(l1)), LabelDef(l3)];
  }

  /** The for loop's code up to its body: the init statement, then the blocks labelled L1, L2 and L3. */
  method GenerateForHead(s: Stmt, ctx: GenerationContext, l1: nat) returns (code: seq<Quad>)
    requires s.For? && G.GenerableIn(s, ctx.Snapshot())
    modifies ctx
    ensures var i := G.GenStmt(s.init.value, old(ctx.Snapshot()));
      code == G.ForHead(s, i.code, l1) && ctx.Snapshot() == i.st
    decreases s, 0
  {
    code := GenerateStmt(s.init.value, ctx);
    code := code + [LabelDef(l1)];
    var c := GenerateExpr(s.forCond.value);
    code := code + c + [Plain("JMP", LabelRef(l1 + 3)), LabelDef(l1 + 1)];
    var inc := GenerateExpr(s.inc.value);
    code := code + inc + [Plain("JMP", LabelRef(l1)), LabelDef(l1 + 2)];
  }

  /** The five `labelCounter++` of ForNode::generateQuad, taken before any code is emitted. */
  method NewForLabels(ctx: GenerationContext) returns (l1: nat, l2: nat, l3: nat, l4: nat, l5: nat)
    modifies ctx
    ensures l1 == old(ctx.labelCounter) && l2 == l1 + 1 && l3 == l1 + 2 && l4 == l1 + 3 && l5 == l1 + 4
    ensures ctx.Snapshot() == old(ctx.Snapshot()).(labelCounter := l1 + 5)
  {
    l1 := ctx.NewLabel();
    l2 := ctx.NewLabel();
    l3 := ctx.NewLabel();
    l4 := ctx.NewLabel();
    l5 := ctx.NewLabel();
  }

  method GenerateFor(s: Stmt, ctx: GenerationContext) returns (code: seq<Quad>)
    requires s.For? && G.GenerableIn(s, ctx.Snapshot())
    modifies ctx
    ensures G.GenOut(code, ctx.Snapshot()) == G.GenFor(s, old(ctx.Snapshot()))
    decreases s, 1
  {
    ghost var g := ctx.Snapshot();
    var l1, l2, l3, l4, l5 := NewForLabels(ctx);
    ghost var i := G.GenStmt(s.init.value, ctx.Snapshot());
    ghost var bs := G.GenStmt(s.body, G.PushTargets(i.st, l5, l2));
    assert G.GenFor(s, g) == G.GenOut(G.ForHead(s, i.code, l1) + bs.code + G.ForTail(l1), G.PopTargets(bs.st));
    code := GenerateForHead(s, ctx, l1);
    var b := GenerateLoopBody(s.body, l5, l2, ctx);
    code := code + b + [Plain("JMP", LabelRef(l2)), LabelDef(l4), Plain("JZ", LabelRef(l5)),
                        Plain("JMP", LabelRef(l3)), LabelDef(l5)];
  }

  method GenerateSwitch(s: Stmt, ctx: GenerationContext) returns (code: seq<Quad>)
    requires s.Switch? && G.GenerableIn(s, ctx.Snapshot())
    modifies ctx
    ensures G.GenOut(code, ctx.Snapshot()) == G.GenSwitch(s, old(ctx.Snapshot()))
    decreases s, 1
  {
    var l1 := ctx.NewLabel();
    code := GenerateExpr(s.cond);
    code := code + [Typed(Pop, s.cond.ty, SwitchCond(l1))];
    ctx.breakLabels := ctx.breakLabels + [l1];
    var b := GenerateStmt(s.body, ctx);
    ctx.breakLabels := DropTop(ctx.breakLabels);
    code := code + b + [LabelDef(l1)];
  }

  method GenerateCase(s: Stmt, ctx: GenerationContext) returns (code: seq<Quad>)
    requires s.CaseLabel? && G.GenerableIn(s, ctx.Snapshot())
    modifies ctx
    ensures G.GenOut(code, ctx.Snapshot()) == G.GenCase(s, old(ctx.Snapshot()))
    decreases s, 1
  {
    if s.value.None? {
      code := GenerateStmt(s.body, ctx);
      return;
    }
    var v := s.value.value;
    var l1 := ctx.NewLabel();
    code := [Typed(Push, v.ty, SwitchCond(G.Top(ctx.breakLabels)))];
    var c := GenerateExpr(v);
    code := code + c + [Typed(Equal, v.ty, NoOperand), Typed(Jz, Bool, LabelRef(l1))];
    var b := GenerateStmt(s.body, ctx);
    code := code + b + [LabelDef(l1)];
  }

  method GenerateFunction(s: Stmt, ctx: GenerationContext) returns (code: seq<Quad>)
    requires s.FunctionDef? && G.GenerableIn(s, ctx.Snapshot())
    modifies ctx
    ensures G.GenOut(code, ctx.Snapshot()) == G.GenFunction(s, old(ctx.Snapshot()))
    decreases s, 1
  {
    var ps := s.params;
    code := [Plain("PROC", Name(s.name))];
    ctx.declareFuncParams := true;
    var i := 0;
    while i < |ps|
      invariant 0 <= i <= |ps|
      invariant ctx.Snapshot() == old(ctx.Snapshot()).(declareFuncParams := true)
      invariant code == [Plain("PROC", Name(s.name))] + G.ParamsCode(ps[..i], true)
    {
      var p := GenerateDecl(ps[i], ctx);
      assert ps[..i + 1][..i] == ps[..i];
      code := code + p;
      i := i + 1;
    }
    assert ps[..i] == ps;
    ctx.declareFuncParams := false;
    var b := GenerateBlock(s.fnBody, ctx);
    code := code + b + [Plain("ENDP", Name(s.name))];
  }
}
