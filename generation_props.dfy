/**
 * Properties of the quadruple-lowering walk: every construct defines each label
 * it takes from the counter exactly once and no other label, and every jump it
 * emits lands on one of those labels or on an enclosing break or continue
 * target; the exact instruction layout of each construct; the ordering of the
 * labels; and which target a break, a continue and a case label read.
 */
module GenerationProps {
  import opened Wrappers
  import opened Consts
  import opened Ast
  import opened Quads
  import opened ExprGen
  import opened GenCtx
  import opened ScopeCtx
  import opened Generation

  // ---------------------------------------------------------------------------
  // Label accounting
  // ---------------------------------------------------------------------------

  /**
   * The code of r defines exactly the labels allocated between g and r.st, each
   * once; every jump in it goes to one of them or to a break or continue target
   * already on the stacks of g.
   */
  ghost predicate Accounted(g: GenState, r: GenOut)
  {
    g.labelCounter <= r.st.labelCounter
    && (forall l: nat :: Count(r.code, l) == if g.labelCounter <= l < r.st.labelCounter then 1 else 0)
    && forall l: nat :: Jumps(r.code, l) ==>
         (g.labelCounter <= l < r.st.labelCounter) || l in g.breakLabels || l in g.continueLabels
  }

  /** Two lines written one after the other. */
  lemma Two(p: Quad, q: Quad, l: nat)
    ensures Count([p, q], l) == (if p == LabelDef(l) then 1 else 0) + (if q == LabelDef(l) then 1 else 0)
    ensures Jumps([p, q], l) <==> Target(p) == Some(l) || Target(q) == Some(l)
  {
    assert [p, q] == [p] + [q];
    One(p, l);
    One(q, l);
    CountAppend([p], [q], l);
  }

  // Each construct's accounting, over its pieces: straight-line expression
  // code and the already-accounted code of its sub-statements. A *Code lemma
  // reads off, for one label l, how often a layout defines l and whether it
  // jumps to l; an Enclose lemma counts them against the counter.

  /**
   * A construct that takes the labels from g's counter up to gi's, defines each
   * of them once, jumps only to them, and around them holds one accounted piece
   * generated from gi, with at most its own labels pushed as targets.
   */
  lemma Enclose(g: GenState, code: seq<Quad>, st: GenState, gi: GenState, inner: GenOut)
    requires g.labelCounter <= gi.labelCounter && Accounted(gi, inner)
    requires forall l :: l in gi.breakLabels ==> l in g.breakLabels || g.labelCounter <= l < gi.labelCounter
    requires forall l :: l in gi.continueLabels ==> l in g.continueLabels || g.labelCounter <= l < gi.labelCounter
    requires forall l: nat :: Count(code, l) == Count(inner.code, l) + if g.labelCounter <= l < gi.labelCounter then 1 else 0
    requires forall l: nat :: Jumps(code, l) ==> Jumps(inner.code, l) || g.labelCounter <= l < gi.labelCounter
    requires st.labelCounter == inner.st.labelCounter
    ensures Accounted(g, GenOut(code, st))
  {
  }

  /** An if with an else branch: L1 before the then-branch, L2 between the branches. */
  lemma EncloseTwo(g: GenState, code: seq<Quad>, st: GenState, g1: GenState, t: GenOut, g2: GenState, el: GenOut)
    requires g1 == g.(labelCounter := g.labelCounter + 1) && Accounted(g1, t)
    requires t.st.breakLabels == g.breakLabels && t.st.continueLabels == g.continueLabels
    requires g2 == t.st.(labelCounter := t.st.labelCounter + 1) && Accounted(g2, el)
    requires forall l: nat :: Count(code, l) == Count(t.code, l) + Count(el.code, l)
                                + (if l == g.labelCounter then 1 else 0) + (if l == t.st.labelCounter then 1 else 0)
    requires forall l: nat :: Jumps(code, l) ==>
      Jumps(t.code, l) || Jumps(el.code, l) || l == g.labelCounter || l == t.st.labelCounter
    requires st.labelCounter == el.st.labelCounter
    ensures Accounted(g, GenOut(code, st))
  {
  }

  /** A for loop: five labels, then the init statement, then the body with its targets pushed. */
  lemma EncloseFor(g: GenState, code: seq<Quad>, st: GenState, gi: GenState, i: GenOut, gb: GenState, b: GenOut)
    requires gi == g.(labelCounter := g.labelCounter + 5) && Accounted(gi, i)
    requires gb == PushTargets(i.st, g.labelCounter + 4, g.labelCounter + 1) && Accounted(gb, b)
    requires i.st.breakLabels == g.breakLabels && i.st.continueLabels == g.continueLabels
    requires forall l: nat :: Count(code, l) == Count(i.code, l) + Count(b.code, l)
                                + if g.labelCounter <= l < gi.labelCounter then 1 else 0
    requires forall l: nat :: Jumps(code, l) ==>
      Jumps(i.code, l) || Jumps(b.code, l) || g.labelCounter <= l < gi.labelCounter
    requires st.labelCounter == b.st.labelCounter
    ensures Accounted(g, GenOut(code, st))
  {
  }

  lemma IfCode(l1: nat, e: seq<Quad>, ty: DataType, t: seq<Quad>, l: nat)
    requires StraightLine(e)
    ensures var code := e + [Typed(Jz, ty, LabelRef(l1))] + t + [LabelDef(l1)];
      Count(code, l) == Count(t, l) + (if l == l1 then 1 else 0)
      && (Jumps(code, l) ==> Jumps(t, l) || l == l1)
  {
    var jz := Typed(Jz, ty, LabelRef(l1));
    StraightLineNoLabels(e, l);
    One(jz, l);
    One(LabelDef(l1), l);
    CountAppend(e, [jz], l);
    CountAppend(e + [jz], t, l);
    CountAppend(e + [jz] + t, [LabelDef(l1)], l);
  }

  lemma IfElseCode(l1: nat, l2: nat, e: seq<Quad>, ty: DataType, t: seq<Quad>, el: seq<Quad>, l: nat)
    requires StraightLine(e)
    ensures var code := e + [Typed(Jz, ty, LabelRef(l1))] + t
                        + [Typed(Jmp, ErrorType, LabelRef(l2)), LabelDef(l1)] + el + [LabelDef(l2)];
      Count(code, l) == Count(t, l) + Count(el, l) + (if l == l1 then 1 else 0) + (if l == l2 then 1 else 0)
      && (Jumps(code, l) ==> Jumps(t, l) || Jumps(el, l) || l == l1 || l == l2)
  {
    var jz := Typed(Jz, ty, LabelRef(l1));
    var mid := [Typed(Jmp, ErrorType, LabelRef(l2)), LabelDef(l1)];
    var head := e + [jz] + t;
    StraightLineNoLabels(e, l);
    One(jz, l);
    Two(mid[0], mid[1], l);
    One(LabelDef(l2), l);
    CountAppend(e, [jz], l);
    CountAppend(e + [jz], t, l);
    CountAppend(head, mid, l);
    CountAppend(head + mid, el, l);
    CountAppend(head + mid + el, [LabelDef(l2)], l);
  }

  lemma WhileCode(l1: nat, e: seq<Quad>, b: seq<Quad>, l: nat)
    requires StraightLine(e)
    ensures var code := [LabelDef(l1)] + e + [Plain("JZ", LabelRef(l1 + 1))]
                        + b + [Plain("JMP", LabelRef(l1)), LabelDef(l1 + 1)];
      Count(code, l) == Count(b, l) + (if l1 <= l < l1 + 2 then 1 else 0)
      && (Jumps(code, l) ==> Jumps(b, l) || l1 <= l < l1 + 2)
  {
    var jz := Plain("JZ", LabelRef(l1 + 1));
    var tail := [Plain("JMP", LabelRef(l1)), LabelDef(l1 + 1)];
    StraightLineNoLabels(e, l);
    One(LabelDef(l1), l);
    One(jz, l);
    Two(tail[0], tail[1], l);
    CountAppend([LabelDef(l1)], e, l);
    CountAppend([LabelDef(l1)] + e, [jz], l);
    CountAppend([LabelDef(l1)] + e + [jz], b, l);
    CountAppend([LabelDef(l1)] + e + [jz] + b, tail, l);
  }

  lemma DoWhileCode(l1: nat, e: seq<Quad>, b: seq<Quad>, l: nat)
    requires StraightLine(e)
    ensures var code := [LabelDef(l1)] + b + [LabelDef(l1 + 1)] + e + [Plain("JNZ", LabelRef(l1)), LabelDef(l1 + 2)];
      Count(code, l) == Count(b, l) + (if l1 <= l < l1 + 3 then 1 else 0)
      && (Jumps(code, l) ==> Jumps(b, l) || l == l1)
  {
    var tail := [Plain("JNZ", LabelRef(l1)), LabelDef(l1 + 2)];
    StraightLineNoLabels(e, l);
    One(LabelDef(l1), l);
    One(LabelDef(l1 + 1), l);
    Two(tail[0], tail[1], l);
    CountAppend([LabelDef(l1)], b, l);
    CountAppend([LabelDef(l1)] + b, [LabelDef(l1 + 1)], l);
    CountAppend([LabelDef(l1)] + b + [LabelDef(l1 + 1)], e, l);
    CountAppend([LabelDef(l1)] + b + [LabelDef(l1 + 1)] + e, tail, l);
  }

  lemma ForHeadCode(s: Stmt, i: seq<Quad>, l1: nat, l: nat)
    requires s.For? && s.forCond.Some? && s.inc.Some?
    requires ExprGenerable(s.forCond.value) && ExprGenerable(s.inc.value)
    ensures Count(ForHead(s, i, l1), l) == Count(i, l) + if l1 <= l < l1 + 3 then 1 else 0
    ensures Jumps(ForHead(s, i, l1), l) ==> Jumps(i, l) || l == l1 || l == l1 + 3
  {
    var c := ExprCode(s.forCond.value);
    var n := ExprCode(s.inc.value);
    var p2 := [Plain("JMP", LabelRef(l1 + 3)), LabelDef(l1 + 1)];
    var p3 := [Plain("JMP", LabelRef(l1)), LabelDef(l1 + 2)];
    StraightLineNoLabels(c, l);
    StraightLineNoLabels(n, l);
    One(LabelDef(l1), l);
    Two(p2[0], p2[1], l);
    Two(p3[0], p3[1], l);
    var a := i + [LabelDef(l1)];
    CountAppend(i, [LabelDef(l1)], l);
    CountAppend(a, c, l);
    CountAppend(a + c, p2, l);
    CountAppend(a + c + p2, n, l);
    CountAppend(a + c + p2 + n, p3, l);
  }

  lemma ForTailCode(l1: nat, l: nat)
    ensures Count(ForTail(l1), l) == if l1 + 3 <= l < l1 + 5 then 1 else 0
    ensures Jumps(ForTail(l1), l) ==> l1 + 1 <= l < l1 + 5
  {
    var t := ForTail(l1);
    assert t == [t[0], t[1]] + [t[2], t[3]] + [t[4]];
    Two(t[0], t[1], l);
    Two(t[2], t[3], l);
    One(t[4], l);
    CountAppend([t[0], t[1]], [t[2], t[3]], l);
    CountAppend([t[0], t[1]] + [t[2], t[3]], [t[4]], l);
  }

  lemma ForCode(s: Stmt, i: seq<Quad>, l1: nat, b: seq<Quad>, l: nat)
    requires s.For? && s.forCond.Some? && s.inc.Some?
    requires ExprGenerable(s.forCond.value) && ExprGenerable(s.inc.value)
    ensures var code := ForHead(s, i, l1) + b + ForTail(l1);
      Count(code, l) == Count(i, l) + Count(b, l) + (if l1 <= l < l1 + 5 then 1 else 0)
      && (Jumps(code, l) ==> Jumps(i, l) || Jumps(b, l) || l1 <= l < l1 + 5)
  {
    ForHeadCode(s, i, l1, l);
    ForTailCode(l1, l);
    CountAppend(ForHead(s, i, l1), b, l);
    CountAppend(ForHead(s, i, l1) + b, ForTail(l1), l);
  }

  lemma SwitchCode(l1: nat, e: seq<Quad>, ty: DataType, b: seq<Quad>, l: nat)
    requires StraightLine(e)
    ensures var code := e + [Typed(Pop, ty, SwitchCond(l1))] + b + [LabelDef(l1)];
      Count(code, l) == Count(b, l) + (if l == l1 then 1 else 0)
      && (Jumps(code, l) ==> Jumps(b, l))
  {
    var pop := Typed(Pop, ty, SwitchCond(l1));
    StraightLineNoLabels(e, l);
    One(pop, l);
    One(LabelDef(l1), l);
    CountAppend(e, [pop], l);
    CountAppend(e + [pop], b, l);
    CountAppend(e + [pop] + b, [LabelDef(l1)], l);
  }

  lemma CaseCode(l1: nat, e: seq<Quad>, ty: DataType, slot: nat, b: seq<Quad>, l: nat)
    requires StraightLine(e)
    ensures var code := [Typed(Push, ty, SwitchCond(slot))] + e
                        + [Typed(Equal, ty, NoOperand), Typed(Jz, Bool, LabelRef(l1))] + b + [LabelDef(l1)];
      Count(code, l) == Count(b, l) + (if l == l1 then 1 else 0)
      && (Jumps(code, l) ==> Jumps(b, l) || l == l1)
  {
    var push := Typed(Push, ty, SwitchCond(slot));
    var test := [Typed(Equal, ty, NoOperand), Typed(Jz, Bool, LabelRef(l1))];
    StraightLineNoLabels(e, l);
    One(push, l);
    Two(test[0], test[1], l);
    One(LabelDef(l1), l);
    CountAppend([push], e, l);
    CountAppend([push] + e, test, l);
    CountAppend([push] + e + test, b, l);
    CountAppend([push] + e + test + b, [LabelDef(l1)], l);
  }

  lemma FunctionCode(name: string, p: seq<Quad>, b: seq<Quad>, l: nat)
    requires StraightLine(p)
    ensures var code := [Plain("PROC", Name(name))] + p + b + [Plain("ENDP", Name(name))];
      Count(code, l) == Count(b, l) && (Jumps(code, l) ==> Jumps(b, l))
  {
    var proc := Plain("PROC", Name(name));
    StraightLineNoLabels(p, l);
    One(proc, l);
    One(Plain("ENDP", Name(name)), l);
    CountAppend([proc], p, l);
    CountAppend([proc] + p, b, l);
    CountAppend([proc] + p + b, [Plain("ENDP", Name(name))], l);
  }

  /** Straight-line code allocates nothing and is accounted in any state. */
  lemma StraightAccounted(g: GenState, code: seq<Quad>)
    requires StraightLine(code)
    ensures Accounted(g, GenOut(code, g))
  {
    forall l: nat ensures Count(code, l) == 0 && !Jumps(code, l) {
      StraightLineNoLabels(code, l);
    }
  }

  /** A lone jump to an enclosing target: what break and continue emit. */
  lemma JumpAccounted(g: GenState, target: nat)
    requires target in g.breakLabels || target in g.continueLabels
    ensures Accounted(g, GenOut([Plain("JMP", LabelRef(target))], g))
  {
    forall l: nat ensures Count([Plain("JMP", LabelRef(target))], l) == 0
      && (Jumps([Plain("JMP", LabelRef(target))], l) ==> l == target)
    {
      One(Plain("JMP", LabelRef(target)), l);
    }
  }

  lemma {:induction false} StmtAccounted(s: Stmt, g: GenState)
    requires GenerableIn(s, g)
    ensures Accounted(g, GenStmt(s, g))
    decreases s, 2
  {
    match s
    case Block(ss) => SeqAccounted(ss, g);
    case Decl(d) => StraightAccounted(g, DeclCode(d, g.declareFuncParams));
    case If(_, _, _) => IfAccounted(s, g);
    case While(_, _) => WhileAccounted(s, g);
    case DoWhile(_, _) => DoWhileAccounted(s, g);
    case For(_, _, _, _) => ForAccounted(s, g);
    case Switch(_, _) => SwitchAccounted(s, g);
    case CaseLabel(_, _) => CaseAccounted(s, g);
    case Break => JumpAccounted(g, Top(g.breakLabels));
    case Continue => JumpAccounted(g, Top(g.continueLabels));
    case FunctionDef(_, _, _, _) => FunctionAccounted(s, g);
    case ErrorStmt => StraightAccounted(g, []);
    case ExprStmt(e) => StraightAccounted(g, ExprCode(e));
  }

  lemma {:induction false} SeqAccounted(ss: seq<Stmt>, g: GenState)
    requires AllGenerableIn(ss, g)
    ensures Accounted(g, GenSeq(ss, g))
    decreases ss, 0
  {
    if ss != [] {
      var a := GenStmt(ss[0], g);
      StmtAccounted(ss[0], g);
      SeqAccounted(ss[1..], a.st);
      var b := GenSeq(ss[1..], a.st);
      forall l: nat ensures Count(a.code + b.code, l) == Count(a.code, l) + Count(b.code, l)
        && (Jumps(a.code + b.code, l) <==> Jumps(a.code, l) || Jumps(b.code, l))
      {
        CountAppend(a.code, b.code, l);
      }
    }
  }

  lemma {:induction false} IfAccounted(s: Stmt, g: GenState)
    requires s.If? && GenerableIn(s, g)
    ensures Accounted(g, GenIf(s, g))
    decreases s, 1
  {
    var l1 := g.labelCounter;
    var g1 := g.(labelCounter := l1 + 1);
    var t := GenStmt(s.thenBody, g1);
    StmtAccounted(s.thenBody, g1);
    var e := ExprCode(s.cond);
    var code := GenIf(s, g).code;
    if s.elseBody.Some? {
      var l2 := t.st.labelCounter;
      var g2 := t.st.(labelCounter := l2 + 1);
      var el := GenStmt(s.elseBody.value, g2);
      StmtAccounted(s.elseBody.value, g2);
      assert code == e + [Typed(Jz, s.cond.ty, LabelRef(l1))] + t.code
                     + [Typed(Jmp, ErrorType, LabelRef(l2)), LabelDef(l1)] + el.code + [LabelDef(l2)];
      forall l: nat ensures Count(code, l) == Count(t.code, l) + Count(el.code, l) + (if l == l1 then 1 else 0) + (if l == l2 then 1 else 0)
        && (Jumps(code, l) ==> Jumps(t.code, l) || Jumps(el.code, l) || l == l1 || l == l2)
      {
        IfElseCode(l1, l2, e, s.cond.ty, t.code, el.code, l);
      }
      EncloseTwo(g, code, el.st, g1, t, g2, el);
    } else {
      assert code == e + [Typed(Jz, s.cond.ty, LabelRef(l1))] + t.code + [LabelDef(l1)];
      forall l: nat ensures Count(code, l) == Count(t.code, l) + (if l1 <= l < l1 + 1 then 1 else 0)
        && (Jumps(code, l) ==> Jumps(t.code, l) || l1 <= l < l1 + 1)
      {
        IfCode(l1, e, s.cond.ty, t.code, l);
      }
      Enclose(g, code, t.st, g1, t);
    }
  }

  lemma {:induction false} WhileAccounted(s: Stmt, g: GenState)
    requires s.While? && GenerableIn(s, g)
    ensures Accounted(g, GenWhile(s, g))
    decreases s, 1
  {
    var l1 := g.labelCounter;
    var gb := PushTargets(g.(labelCounter := l1 + 2), l1 + 1, l1);
    var b := GenStmt(s.body, gb);
    StmtAccounted(s.body, gb);
    var e := ExprCode(s.cond);
    var code := GenWhile(s, g).code;
    assert code == [LabelDef(l1)] + e + [Plain("JZ", LabelRef(l1 + 1))]
                   + b.code + [Plain("JMP", LabelRef(l1)), LabelDef(l1 + 1)];
    forall l: nat ensures Count(code, l) == Count(b.code, l) + (if l1 <= l < l1 + 2 then 1 else 0)
      && (Jumps(code, l) ==> Jumps(b.code, l) || l1 <= l < l1 + 2)
    {
      WhileCode(l1, e, b.code, l);
    }
    Enclose(g, code, PopTargets(b.st), gb, b);
  }

  lemma {:induction false} DoWhileAccounted(s: Stmt, g: GenState)
    requires s.DoWhile? && GenerableIn(s, g)
    ensures Accounted(g, GenDoWhile(s, g))
    decreases s, 1
  {
    var l1 := g.labelCounter;
    var gb := PushTargets(g.(labelCounter := l1 + 3), l1 + 2, l1 + 1);
    var b := GenStmt(s.body, gb);
    StmtAccounted(s.body, gb);
    var e := ExprCode(s.cond);
    var code := GenDoWhile(s, g).code;
    assert code == [LabelDef(l1)] + b.code + [LabelDef(l1 + 1)] + e + [Plain("JNZ", LabelRef(l1)), LabelDef(l1 + 2)];
    forall l: nat ensures Count(code, l) == Count(b.code, l) + (if l1 <= l < l1 + 3 then 1 else 0)
      && (Jumps(code, l) ==> Jumps(b.code, l) || l1 <= l < l1 + 3)
    {
      DoWhileCode(l1, e, b.code, l);
    }
    Enclose(g, code, PopTargets(b.st), gb, b);
  }

  lemma {:induction false} ForAccounted(s: Stmt, g: GenState)
    requires s.For? && GenerableIn(s, g)
    ensures Accounted(g, GenFor(s, g))
    decreases s, 1
  {
    var l1 := g.labelCounter;
    var gi := g.(labelCounter := l1 + 5);
    var i := GenStmt(s.init.value, gi);
    StmtAccounted(s.init.value, gi);
    var gb := PushTargets(i.st, l1 + 4, l1 + 1);
    var b := GenStmt(s.body, gb);
    StmtAccounted(s.body, gb);
    var code := GenFor(s, g).code;
    assert code == ForHead(s, i.code, l1) + b.code + ForTail(l1);
    forall l: nat ensures Count(code, l) == Count(i.code, l) + Count(b.code, l) + (if l1 <= l < l1 + 5 then 1 else 0)
      && (Jumps(code, l) ==> Jumps(i.code, l) || Jumps(b.code, l) || l1 <= l < l1 + 5)
    {
      ForCode(s, i.code, l1, b.code, l);
    }
    EncloseFor(g, code, PopTargets(b.st), gi, i, gb, b);
  }

  lemma {:induction false} SwitchAccounted(s: Stmt, g: GenState)
    requires s.Switch? && GenerableIn(s, g)
    ensures Accounted(g, GenSwitch(s, g))
    decreases s, 1
  {
    var l1 := g.labelCounter;
    var gb := g.(labelCounter := l1 + 1, breakLabels := g.breakLabels + [l1]);
    var b := GenStmt(s.body, gb);
    StmtAccounted(s.body, gb);
    var e := ExprCode(s.cond);
    var r := GenSwitch(s, g);
    assert r.code == e + [Typed(Pop, s.cond.ty, SwitchCond(l1))] + b.code + [LabelDef(l1)];
    forall l: nat ensures Count(r.code, l) == Count(b.code, l) + (if l1 <= l < l1 + 1 then 1 else 0)
      && (Jumps(r.code, l) ==> Jumps(b.code, l))
    {
      SwitchCode(l1, e, s.cond.ty, b.code, l);
    }
    Enclose(g, r.code, r.st, gb, b);
  }

  lemma {:induction false} CaseAccounted(s: Stmt, g: GenState)
    requires s.CaseLabel? && GenerableIn(s, g)
    ensures Accounted(g, GenCase(s, g))
    decreases s, 1
  {
    if s.value.None? {
      StmtAccounted(s.body, g);
    } else {
      var l1 := g.labelCounter;
      var v := s.value.value;
      var gb := g.(labelCounter := l1 + 1);
      var b := GenStmt(s.body, gb);
      StmtAccounted(s.body, gb);
      var e := ExprCode(v);
      var code := GenCase(s, g).code;
      assert code == [Typed(Push, v.ty, SwitchCond(Top(g.breakLabels)))] + e
                     + [Typed(Equal, v.ty, NoOperand), Typed(Jz, Bool, LabelRef(l1))] + b.code + [LabelDef(l1)];
      forall l: nat ensures Count(code, l) == Count(b.code, l) + (if l1 <= l < l1 + 1 then 1 else 0)
        && (Jumps(code, l) ==> Jumps(b.code, l) || l1 <= l < l1 + 1)
      {
        CaseCode(l1, e, v.ty, Top(g.breakLabels), b.code, l);
      }
      Enclose(g, code, b.st, gb, b);
    }
  }

  lemma {:induction false} FunctionAccounted(s: Stmt, g: GenState)
    requires s.FunctionDef? && GenerableIn(s, g)
    ensures Accounted(g, GenFunction(s, g))
    decreases s, 1
  {
    var gb := g.(declareFuncParams := false);
    var b := GenSeq(s.fnBody, gb);
    SeqAccounted(s.fnBody, gb);
    var p := ParamsCode(s.params, true);
    var code := GenFunction(s, g).code;
    assert code == [Plain("PROC", Name(s.name))] + p + b.code + [Plain("ENDP", Name(s.name))];
    forall l: nat ensures Count(code, l) == Count(b.code, l) && (Jumps(code, l) ==> Jumps(b.code, l)) {
      FunctionCode(s.name, p, b.code, l);
    }
    Enclose(g, code, GenFunction(s, g).st, gb, b);
  }

  /**
   * A translation unit generated from a fresh context: labels L0 up to the
   * final counter are each defined exactly once, no other label is defined, and
   * every jump goes to a label the unit defines.
   */
  lemma ProgramLabelsClosed(ss: seq<Stmt>)
    requires forall i :: 0 <= i < |ss| ==> Generable(ss[i], false, false)
    ensures var r := GenSeq(ss, InitialGenState);
      (forall l: nat :: Count(r.code, l) == if l < r.st.labelCounter then 1 else 0)
      && forall l: nat :: Jumps(r.code, l) ==> Count(r.code, l) == 1
  {
    SeqAccounted(ss, InitialGenState);
  }
}
