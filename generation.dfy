/**
 * The quadruple-lowering walk (`generateQuad`) of the statement nodes as
 * functions from a generation state to the emitted code and the state left
 * behind. Each construct takes its labels from the counter, brackets its body
 * with pushes and pops of the break and continue stacks, and emits its
 * instructions in the order the nodes write them.
 */
module Generation {
  import opened Wrappers
  import opened Consts
  import opened Ast
  import opened Quads
  import opened ExprGen
  import opened GenCtx
  import opened ScopeCtx

  datatype GenOut = GenOut(code: seq<Quad>, st: GenState)

  predicate DeclGenerable(d: VarDecl)
  {
    d.value.Some? ==> ExprGenerable(d.value.value)
  }

  /**
   * What generation demands of a tree that passed analysis: a break sits in a
   * loop or switch, a continue in a loop, a valued case label where a break
   * target exists (it reads breakLabels.top()), a for loop has all three heads
   * (ForNode::generateQuad uses them unconditionally), and every call has no
   * more arguments than parameters.
   */
  predicate Generable(s: Stmt, canBreak: bool, canContinue: bool)
    decreases s
  {
    match s
    case Block(ss) => forall i :: 0 <= i < |ss| ==> Generable(ss[i], canBreak, canContinue)
    case Decl(d) => DeclGenerable(d)
    case If(c, t, el) =>
      ExprGenerable(c) && Generable(t, canBreak, canContinue)
      && (el.Some? ==> Generable(el.value, canBreak, canContinue))
    case While(c, b) => ExprGenerable(c) && Generable(b, true, true)
    case DoWhile(c, b) => ExprGenerable(c) && Generable(b, true, true)
    case For(init, c, inc, b) =>
      init.Some? && c.Some? && inc.Some?
      && Generable(init.value, canBreak, canContinue) && ExprGenerable(c.value) && ExprGenerable(inc.value)
      && Generable(b, true, true)
    case Switch(c, b) => ExprGenerable(c) && Generable(b, true, canContinue)
    case CaseLabel(v, b) => (v.Some? ==> canBreak && ExprGenerable(v.value)) && Generable(b, canBreak, canContinue)
    case Break => canBreak
    case Continue => canContinue
    case FunctionDef(_, _, ps, body) =>
      (forall i :: 0 <= i < |ps| ==> DeclGenerable(ps[i]))
      && forall i :: 0 <= i < |body| ==> Generable(body[i], canBreak, canContinue)
    case ErrorStmt => true
    case ExprStmt(e) => ExprGenerable(e)
  }

  /** Generable where the stacks of g are the break and continue targets. */
  predicate GenerableIn(s: Stmt, g: GenState)
  {
    Generable(s, |g.breakLabels| > 0, |g.continueLabels| > 0)
  }

  predicate AllGenerableIn(ss: seq<Stmt>, g: GenState)
  {
    forall i :: 0 <= i < |ss| ==> GenerableIn(ss[i], g)
  }

  /**
   * The state after generating a construct: both target stacks as they were,
   * the counter never lower, and declareFuncParams never newly set.
   */
  predicate Restored(g: GenState, g': GenState)
  {
    g'.breakLabels == g.breakLabels && g'.continueLabels == g.continueLabels
    && g.labelCounter <= g'.labelCounter
    && (g'.declareFuncParams ==> g.declareFuncParams)
  }

  /** `breakLabels.push(brk); continueLabels.push(cont)`. */
  function PushTargets(g: GenState, brk: nat, cont: nat): GenState
  {
    g.(breakLabels := g.breakLabels + [brk], continueLabels := g.continueLabels + [cont])
  }

  /** `breakLabels.pop(); continueLabels.pop()`. */
  function PopTargets(g: GenState): GenState
  {
    g.(breakLabels := DropTop(g.breakLabels), continueLabels := DropTop(g.continueLabels))
  }

  /** The top of a non-empty stack. */
  function Top(s: seq<nat>): nat
    requires |s| > 0
  {
    s[|s| - 1]
  }

  /**
   * The code of a variable declaration. VarDeclarationNode::generateQuad is not
   * modelled from code; this model assumes a declaration pops its initializer's
   * value into the variable and, while parameters are being declared, pops the
   * parameter's value from the arguments the caller pushed.
   */
  function DeclCode(d: VarDecl, declaringParams: bool): (r: seq<Quad>)
    requires DeclGenerable(d)
    ensures StraightLine(r)
  {
    if declaringParams then [Plain("POP", Name(d.name))]
    else if d.value.Some? then ExprCode(d.value.value) + [Plain("POP", Name(d.name))]
    else []
  }

  function GenStmt(s: Stmt, g: GenState): (r: GenOut)
    requires GenerableIn(s, g)
    ensures Restored(g, r.st)
    decreases s, 2
  {
    match s
    case Block(ss) => GenSeq(ss, g)
    case Decl(d) => GenOut(DeclCode(d, g.declareFuncParams), g)
    case If(_, _, _) => GenIf(s, g)
    case While(_, _) => GenWhile(s, g)
    case DoWhile(_, _) => GenDoWhile(s, g)
    case For(_, _, _, _) => GenFor(s, g)
    case Switch(_, _) => GenSwitch(s, g)
    case CaseLabel(_, _) => GenCase(s, g)
    case Break => GenOut([Plain("JMP", LabelRef(Top(g.breakLabels)))], g)
    case Continue => GenOut([Plain("JMP", LabelRef(Top(g.continueLabels)))], g)
    case FunctionDef(_, _, _, _) => GenFunction(s, g)
    case ErrorStmt => GenOut([], g)
    case ExprStmt(e) => GenOut(ExprCode(e), g)
  }

  /** The statements of a block, one after the other. */
  function GenSeq(ss: seq<Stmt>, g: GenState): (r: GenOut)
    requires AllGenerableIn(ss, g)
    ensures Restored(g, r.st)
    decreases ss, 0
  {
    if ss == [] then GenOut([], g)
    else
      var a := GenStmt(ss[0], g);
      var b := GenSeq(ss[1..], a.st);
      GenOut(a.code + b.code, b.st)
  }

  /** IfNode::generateQuad: L1 before the condition; L2, with an else branch, only after the then-body. */
  function GenIf(s: Stmt, g: GenState): (r: GenOut)
    requires s.If? && GenerableIn(s, g)
    ensures Restored(g, r.st)
    decreases s, 1
  {
    var l1 := g.labelCounter;
    var t := GenStmt(s.thenBody, g.(labelCounter := l1 + 1));
    var head := ExprCode(s.cond) + [Typed(Jz, s.cond.ty, LabelRef(l1))] + t.code;
    if s.elseBody.Some? then
      var l2 := t.st.labelCounter;
      var el := GenStmt(s.elseBody.value, t.st.(labelCounter := l2 + 1));
      GenOut(head + [Typed(Jmp, ErrorType, LabelRef(l2)), LabelDef(l1)] + el.code + [LabelDef(l2)], el.st)
    else
      GenOut(head + [LabelDef(l1)], t.st)
  }

  /** WhileNode::generateQuad: L1 the loop head and continue target, L2 the exit and break target. */
  function GenWhile(s: Stmt, g: GenState): (r: GenOut)
    requires s.While? && GenerableIn(s, g)
    ensures Restored(g, r.st)
    decreases s, 1
  {
    var l1, l2 := g.labelCounter, g.labelCounter + 1;
    var b := GenStmt(s.body, PushTargets(g.(labelCounter := l2 + 1), l2, l1));
    GenOut([LabelDef(l1)] + ExprCode(s.cond) + [Plain("JZ", LabelRef(l2))]
           + b.code + [Plain("JMP", LabelRef(l1)), LabelDef(l2)],
           PopTargets(b.st))
  }

  /** DoWhileNode::generateQuad: L1 the body, L2 the condition and continue target, L3 the exit and break target. */
  function GenDoWhile(s: Stmt, g: GenState): (r: GenOut)
    requires s.DoWhile? && GenerableIn(s, g)
    ensures Restored(g, r.st)
    decreases s, 1
  {
    var l1, l2, l3 := g.labelCounter, g.labelCounter + 1, g.labelCounter + 2;
    var b := GenStmt(s.body, PushTargets(g.(labelCounter := l3 + 1), l3, l2));
    GenOut([LabelDef(l1)] + b.code + [LabelDef(l2)] + ExprCode(s.cond)
           + [Plain("JNZ", LabelRef(l1)), LabelDef(l3)],
           PopTargets(b.st))
  }

  /** The part of a for loop before its body: the init statement, the condition block L1 and the increment block L2. */
  function ForHead(s: Stmt, i: seq<Quad>, l1: nat): seq<Quad>
    requires s.For? && s.forCond.Some? && s.inc.Some?
    requires ExprGenerable(s.forCond.value) && ExprGenerable(s.inc.value)
  {
    i + [LabelDef(l1)] + ExprCode(s.forCond.value) + [Plain("JMP", LabelRef(l1 + 3)), LabelDef(l1 + 1)]
    + ExprCode(s.inc.value) + [Plain("JMP", LabelRef(l1)), LabelDef(l1 + 2)]
  }

  /** The part of a for loop after its body: back to the increment, then the dispatcher L4 and the exit L5. */
  function ForTail(l1: nat): seq<Quad>
  {
    [Plain("JMP", LabelRef(l1 + 1)), LabelDef(l1 + 3), Plain("JZ", LabelRef(l1 + 4)),
     Plain("JMP", LabelRef(l1 + 2)), LabelDef(l1 + 4)]
  }

  /** ForNode::generateQuad: five labels taken before any code, break bound to L5 and continue to L2 around the body. */
  function GenFor(s: Stmt, g: GenState): (r: GenOut)
    requires s.For? && GenerableIn(s, g)
    ensures Restored(g, r.st)
    decreases s, 1
  {
    var l1 := g.labelCounter;
    var i := GenStmt(s.init.value, g.(labelCounter := l1 + 5));
    var b := GenStmt(s.body, PushTargets(i.st, l1 + 4, l1 + 1));
    GenOut(ForHead(s, i.code, l1) + b.code + ForTail(l1), PopTargets(b.st))
  }

  /** SwitchNode::generateQuad: the condition is stored in SWITCH_COND@L1, and L1 is the break target around the body. */
  function GenSwitch(s: Stmt, g: GenState): (r: GenOut)
    requires s.Switch? && GenerableIn(s, g)
    ensures Restored(g, r.st)
    decreases s, 1
  {
    var l1 := g.labelCounter;
    var b := GenStmt(s.body, g.(labelCounter := l1 + 1, breakLabels := g.breakLabels + [l1]));
    GenOut(ExprCode(s.cond) + [Typed(Pop, s.cond.ty, SwitchCond(l1))] + b.code + [LabelDef(l1)],
           b.st.(breakLabels := DropTop(b.st.breakLabels)))
  }

  /** CaseLabelNode::generateQuad: a default label is its statement's code; a valued case compares against the innermost break target's slot. */
  function GenCase(s: Stmt, g: GenState): (r: GenOut)
    requires s.CaseLabel? && GenerableIn(s, g)
    ensures Restored(g, r.st)
    decreases s, 1
  {
    if s.value.None? then GenStmt(s.body, g)
    else
      var l1 := g.labelCounter;
      var v := s.value.value;
      var b := GenStmt(s.body, g.(labelCounter := l1 + 1));
      GenOut([Typed(Push, v.ty, SwitchCond(Top(g.breakLabels)))] + ExprCode(v)
             + [Typed(Equal, v.ty, NoOperand), Typed(Jz, Bool, LabelRef(l1))] + b.code + [LabelDef(l1)],
             b.st)
  }

  /** The parameters' code, each generated with the current declareFuncParams flag. */
  function ParamsCode(ps: seq<VarDecl>, declaringParams: bool): (r: seq<Quad>)
    requires forall i :: 0 <= i < |ps| ==> DeclGenerable(ps[i])
    ensures StraightLine(r)
  {
    if ps == [] then []
    else ParamsCode(ps[..|ps| - 1], declaringParams) + DeclCode(ps[|ps| - 1], declaringParams)
  }

  /** FunctionNode::generateQuad: PROC, the parameters with declareFuncParams set, the body with it cleared, ENDP. */
  function GenFunction(s: Stmt, g: GenState): (r: GenOut)
    requires s.FunctionDef? && GenerableIn(s, g)
    ensures Restored(g, r.st)
    decreases s, 1
  {
    var g1 := g.(declareFuncParams := true);
    var p := ParamsCode(s.params, g1.declareFuncParams);
    var b := GenSeq(s.fnBody, g1.(declareFuncParams := false));
    GenOut([Plain("PROC", Name(s.name))] + p + b.code + [Plain("ENDP", Name(s.name))], b.st)
  }
}
