/**
 * The layout each statement node emits, the order of the labels it takes,
 * and which target a break, a continue and a case label read: the properties
 * of the lowering walk that are about one construct at a time.
 */
module GenerationLayout {
  import opened Wrappers
  import opened Consts
  import opened Ast
  import opened Quads
  import opened ExprGen
  import opened GenCtx
  import opened Generation
  import opened GenerationProps

  /** The labels a statement's code defines were all taken from the counter while generating it. */
  lemma LabelsTakenDuring(s: Stmt, g: GenState)
    requires GenerableIn(s, g)
    ensures var r := GenStmt(s, g);
      forall l: nat :: Count(r.code, l) > 0 ==> g.labelCounter <= l < r.st.labelCounter
  {
    StmtAccounted(s, g);
  }

  // ---------------------------------------------------------------------------
  // if
  // ---------------------------------------------------------------------------

  /**
   * L1 is the counter on entry, JZ L1 comes right after the condition's code,
   * and L1 is defined exactly once.
   */
  lemma IfTestsFirst(s: Stmt, g: GenState)
    requires s.If? && GenerableIn(s, g)
    ensures var r := GenStmt(s, g); var e := ExprCode(s.cond);
      |r.code| > |e| && r.code[..|e|] == e
      && r.code[|e|] == Typed(Jz, s.cond.ty, LabelRef(g.labelCounter))
      && Count(r.code, g.labelCounter) == 1
  {
    StmtAccounted(s, g);
    var r := GenStmt(s, g);
    var e := ExprCode(s.cond);
    assert r.code == GenIf(s, g).code;
    assert r.code[..|e| + 1] == e + [Typed(Jz, s.cond.ty, LabelRef(g.labelCounter))];
  }

  /** Without an else branch the code ends with L1:, and the if takes no label besides L1. */
  lemma IfWithoutElse(s: Stmt, g: GenState)
    requires s.If? && s.elseBody.None? && GenerableIn(s, g)
    ensures var r := GenStmt(s, g); var t := GenStmt(s.thenBody, g.(labelCounter := g.labelCounter + 1));
      |r.code| == |ExprCode(s.cond)| + |t.code| + 2
      && r.code[|r.code| - 1] == LabelDef(g.labelCounter)
      && r.code[|ExprCode(s.cond)| + 1..|r.code| - 1] == t.code
      && r.st == t.st
  {
    var r := GenStmt(s, g);
    var t := GenStmt(s.thenBody, g.(labelCounter := g.labelCounter + 1));
    var e := ExprCode(s.cond);
    assert r == GenIf(s, g);
    assert r.code == e + [Typed(Jz, s.cond.ty, LabelRef(g.labelCounter))] + t.code + [LabelDef(g.labelCounter)];
  }

  /**
   * With an else branch, L2 is taken only after the then-branch, so it lies
   * above every label the then-branch defines, and it is defined exactly once.
   */
  lemma IfElseLabelOrder(s: Stmt, g: GenState)
    requires s.If? && s.elseBody.Some? && GenerableIn(s, g)
    ensures var t := GenStmt(s.thenBody, g.(labelCounter := g.labelCounter + 1));
      (forall l: nat :: Count(t.code, l) > 0 ==> g.labelCounter < l < t.st.labelCounter)
      && Count(GenStmt(s, g).code, t.st.labelCounter) == 1
  {
    LabelsTakenDuring(s.thenBody, g.(labelCounter := g.labelCounter + 1));
    StmtAccounted(s, g);
    assert GenStmt(s, g) == GenIf(s, g);
  }

  /** The code of an if statement with an else branch: the condition, JZ L1, the then-code, JMP L2, L1:, the else-code, L2:. */
  lemma IfElseUnfold(s: Stmt, g: GenState)
    requires s.If? && s.elseBody.Some? && GenerableIn(s, g)
    ensures var l1 := g.labelCounter; var t := GenStmt(s.thenBody, g.(labelCounter := l1 + 1));
      var l2 := t.st.labelCounter;
      GenStmt(s, g).code
      == ExprCode(s.cond) + [Typed(Jz, s.cond.ty, LabelRef(l1))] + t.code
         + [Typed(Jmp, ErrorType, LabelRef(l2)), LabelDef(l1)]
         + GenStmt(s.elseBody.value, t.st.(labelCounter := l2 + 1)).code + [LabelDef(l2)]
  {
    assert GenStmt(s, g) == GenIf(s, g);
  }

  /**
   * With an else branch, the then-code is followed by JMP L2 and L1:, and the
   * else-code, generated from the label after L2 on, sits between L1: and the
   * final L2:.
   */
  lemma IfElseLayout(s: Stmt, g: GenState)
    requires s.If? && s.elseBody.Some? && GenerableIn(s, g)
    ensures var r := GenStmt(s, g); var e := ExprCode(s.cond);
      var t := GenStmt(s.thenBody, g.(labelCounter := g.labelCounter + 1));
      var l2 := t.st.labelCounter;
      var el := GenStmt(s.elseBody.value, t.st.(labelCounter := l2 + 1));
      var k := |e| + 1 + |t.code|;
      |r.code| == k + 3 + |el.code| && r.code[|e| + 1..k] == t.code
      && r.code[k] == Typed(Jmp, ErrorType, LabelRef(l2))
      && r.code[k + 1] == LabelDef(g.labelCounter)
      && r.code[k + 2..|r.code| - 1] == el.code
      && r.code[|r.code| - 1] == LabelDef(l2)
  {
    var t := GenStmt(s.thenBody, g.(labelCounter := g.labelCounter + 1));
    var l2 := t.st.labelCounter;
    IfElseUnfold(s, g);
    IfElseShape(ExprCode(s.cond), Typed(Jz, s.cond.ty, LabelRef(g.labelCounter)), t.code,
                [Typed(Jmp, ErrorType, LabelRef(l2)), LabelDef(g.labelCounter)],
                GenStmt(s.elseBody.value, t.st.(labelCounter := l2 + 1)).code, LabelDef(l2));
  }

  /** Where the parts of an if-else's code lie, for any condition, branch and jump code. */
  lemma IfElseShape(e: seq<Quad>, jz: Quad, t: seq<Quad>, mid: seq<Quad>, el: seq<Quad>, last: Quad)
    requires |mid| == 2
    ensures var c := e + [jz] + t + mid + el + [last]; var k := |e| + 1 + |t|;
      |c| == k + 3 + |el| && c[|e| + 1..k] == t && c[k] == mid[0] && c[k + 1] == mid[1]
      && c[k + 2..|c| - 1] == el && c[|c| - 1] == last
  {
    var head := e + [jz] + t;
    var c := (head + mid) + (el + [last]);
    assert head[|e| + 1..] == t;
    assert c[|head| + 2..|c| - 1] == el;
  }

  /** With an else branch, the code ends with L2:. */
  lemma IfElseEndsWithL2(s: Stmt, g: GenState)
    requires s.If? && s.elseBody.Some? && GenerableIn(s, g)
    ensures var r := GenStmt(s, g); var t := GenStmt(s.thenBody, g.(labelCounter := g.labelCounter + 1));
      |r.code| > 0 && r.code[|r.code| - 1] == LabelDef(t.st.labelCounter)
  {
    assert GenStmt(s, g) == GenIf(s, g);
  }

  // ---------------------------------------------------------------------------
  // loops
  // ---------------------------------------------------------------------------

  /**
   * A while loop takes L1 and L2 = L1 + 1: the code opens with L1:, closes with
   * JMP L1 and L2:, defines each once, and every label of its body lies above
   * both.
   */
  lemma WhileLabels(s: Stmt, g: GenState)
    requires s.While? && GenerableIn(s, g)
    ensures var r := GenStmt(s, g); var l1 := g.labelCounter; var n := |r.code|;
      var b := GenStmt(s.body, PushTargets(g.(labelCounter := l1 + 2), l1 + 1, l1));
      n >= 4 && r.code[0] == LabelDef(l1)
      && r.code[n - 2] == Plain("JMP", LabelRef(l1)) && r.code[n - 1] == LabelDef(l1 + 1)
      && Count(r.code, l1) == 1 && Count(r.code, l1 + 1) == 1
      && (forall l: nat :: Count(b.code, l) > 0 ==> l > l1 + 1)
  {
    var l1 := g.labelCounter;
    var gb := PushTargets(g.(labelCounter := l1 + 2), l1 + 1, l1);
    LabelsTakenDuring(s.body, gb);
    StmtAccounted(s, g);
    assert GenStmt(s, g) == GenWhile(s, g);
  }

  /** A break directly in a while body jumps to L2, past the loop. */
  lemma WhileBreak(s: Stmt, g: GenState)
    requires s.While? && s.body == Break && GenerableIn(s, g)
    ensures GenStmt(s, g).code
      == [LabelDef(g.labelCounter)] + ExprCode(s.cond) + [Plain("JZ", LabelRef(g.labelCounter + 1))]
         + [Plain("JMP", LabelRef(g.labelCounter + 1))]
         + [Plain("JMP", LabelRef(g.labelCounter)), LabelDef(g.labelCounter + 1)]
  {
    var l1 := g.labelCounter;
    var gb := PushTargets(g.(labelCounter := l1 + 2), l1 + 1, l1);
    assert GenStmt(Break, gb).code == [Plain("JMP", LabelRef(l1 + 1))];
    assert GenStmt(s, g) == GenWhile(s, g);
  }

  /** A continue directly in a while body jumps back to L1, the loop head. */
  lemma WhileContinue(s: Stmt, g: GenState)
    requires s.While? && s.body == Continue && GenerableIn(s, g)
    ensures GenStmt(s, g).code
      == [LabelDef(g.labelCounter)] + ExprCode(s.cond) + [Plain("JZ", LabelRef(g.labelCounter + 1))]
         + [Plain("JMP", LabelRef(g.labelCounter))]
         + [Plain("JMP", LabelRef(g.labelCounter)), LabelDef(g.labelCounter + 1)]
  {
    var l1 := g.labelCounter;
    var gb := PushTargets(g.(labelCounter := l1 + 2), l1 + 1, l1);
    assert GenStmt(Continue, gb).code == [Plain("JMP", LabelRef(l1))];
    assert GenStmt(s, g) == GenWhile(s, g);
  }

  /** The code of a do-while loop: L1:, the body with break bound to L3 and continue to L2, L2:, the condition, JNZ L1, L3:. */
  lemma DoWhileUnfold(s: Stmt, g: GenState)
    requires s.DoWhile? && GenerableIn(s, g)
    ensures var l1 := g.labelCounter;
      GenStmt(s, g).code
      == [LabelDef(l1)] + GenStmt(s.body, PushTargets(g.(labelCounter := l1 + 3), l1 + 2, l1 + 1)).code
         + [LabelDef(l1 + 1)] + ExprCode(s.cond) + [Plain("JNZ", LabelRef(l1)), LabelDef(l1 + 2)]
  {
    assert GenStmt(s, g) == GenDoWhile(s, g);
  }

  /**
   * A do-while loop opens with L1: and its body; L2: sits between body and
   * condition, the condition's code follows it, and JNZ L1 and L3: close it.
   */
  lemma DoWhileLayout(s: Stmt, g: GenState)
    requires s.DoWhile? && GenerableIn(s, g)
    ensures var r := GenStmt(s, g); var l1 := g.labelCounter; var n := |r.code|;
      var b := GenStmt(s.body, PushTargets(g.(labelCounter := l1 + 3), l1 + 2, l1 + 1));
      n == |b.code| + |ExprCode(s.cond)| + 4 && r.code[0] == LabelDef(l1) && r.code[1..1 + |b.code|] == b.code
      && r.code[1 + |b.code|] == LabelDef(l1 + 1)
      && r.code[2 + |b.code|..n - 2] == ExprCode(s.cond)
      && r.code[n - 2] == Plain("JNZ", LabelRef(l1)) && r.code[n - 1] == LabelDef(l1 + 2)
  {
    var l1 := g.labelCounter;
    var b := GenStmt(s.body, PushTargets(g.(labelCounter := l1 + 3), l1 + 2, l1 + 1));
    DoWhileUnfold(s, g);
    DoWhileShape(b.code, ExprCode(s.cond), l1);
  }

  /** Where the parts of a do-while loop's code lie, for any body and condition code. */
  lemma DoWhileShape(b: seq<Quad>, e: seq<Quad>, l1: nat)
    ensures var c := [LabelDef(l1)] + b + [LabelDef(l1 + 1)] + e + [Plain("JNZ", LabelRef(l1)), LabelDef(l1 + 2)];
      var n := |c|;
      n == |b| + |e| + 4 && c[0] == LabelDef(l1) && c[1..1 + |b|] == b && c[1 + |b|] == LabelDef(l1 + 1)
      && c[2 + |b|..n - 2] == e && c[n - 2] == Plain("JNZ", LabelRef(l1)) && c[n - 1] == LabelDef(l1 + 2)
  {
    var c := ([LabelDef(l1)] + b) + ([LabelDef(l1 + 1)] + e) + [Plain("JNZ", LabelRef(l1)), LabelDef(l1 + 2)];
    assert c[1..1 + |b|] == b;
    assert c[2 + |b|..|c| - 2] == e;
  }

  /** A do-while loop defines each of L1, L2, L3 once, and every label of its body lies above all three. */
  lemma DoWhileLabels(s: Stmt, g: GenState)
    requires s.DoWhile? && GenerableIn(s, g)
    ensures var r := GenStmt(s, g); var l1 := g.labelCounter;
      var b := GenStmt(s.body, PushTargets(g.(labelCounter := l1 + 3), l1 + 2, l1 + 1));
      Count(r.code, l1) == 1 && Count(r.code, l1 + 1) == 1 && Count(r.code, l1 + 2) == 1
      && (forall l: nat :: Count(b.code, l) > 0 ==> l > l1 + 2)
  {
    var l1 := g.labelCounter;
    var gb := PushTargets(g.(labelCounter := l1 + 3), l1 + 2, l1 + 1);
    LabelsTakenDuring(s.body, gb);
    StmtAccounted(s, g);
  }

  /** A break directly in a do-while body jumps to L3, past the loop. */
  lemma DoWhileBreak(s: Stmt, g: GenState)
    requires s.DoWhile? && s.body == Break && GenerableIn(s, g)
    ensures GenStmt(s, g).code
      == [LabelDef(g.labelCounter)] + [Plain("JMP", LabelRef(g.labelCounter + 2))] + [LabelDef(g.labelCounter + 1)]
         + ExprCode(s.cond) + [Plain("JNZ", LabelRef(g.labelCounter)), LabelDef(g.labelCounter + 2)]
  {
    var l1 := g.labelCounter;
    var gb := PushTargets(g.(labelCounter := l1 + 3), l1 + 2, l1 + 1);
    assert GenStmt(Break, gb).code == [Plain("JMP", LabelRef(l1 + 2))];
    DoWhileUnfold(s, g);
  }

  /** A continue directly in a do-while body jumps to L2, the condition, not to the top of the body. */
  lemma DoWhileContinue(s: Stmt, g: GenState)
    requires s.DoWhile? && s.body == Continue && GenerableIn(s, g)
    ensures GenStmt(s, g).code
      == [LabelDef(g.labelCounter)] + [Plain("JMP", LabelRef(g.labelCounter + 1))] + [LabelDef(g.labelCounter + 1)]
         + ExprCode(s.cond) + [Plain("JNZ", LabelRef(g.labelCounter)), LabelDef(g.labelCounter + 2)]
  {
    var l1 := g.labelCounter;
    var gb := PushTargets(g.(labelCounter := l1 + 3), l1 + 2, l1 + 1);
    assert GenStmt(Continue, gb).code == [Plain("JMP", LabelRef(l1 + 1))];
    DoWhileUnfold(s, g);
  }

  /**
   * A for loop takes five labels L1, ..., L5 before any code of its own
   * children: its init statement defines only labels above L5.
   */
  lemma ForInitAbove(s: Stmt, g: GenState)
    requires s.For? && GenerableIn(s, g)
    ensures var i := GenStmt(s.init.value, g.(labelCounter := g.labelCounter + 5));
      forall l: nat :: Count(i.code, l) > 0 ==> l >= g.labelCounter + 5
  {
    LabelsTakenDuring(s.init.value, g.(labelCounter := g.labelCounter + 5));
  }

  /** The body of a for loop, generated after the init statement, defines only labels above L5. */
  lemma ForBodyAbove(s: Stmt, g: GenState)
    requires s.For? && GenerableIn(s, g)
    ensures var l1 := g.labelCounter;
      var i := GenStmt(s.init.value, g.(labelCounter := l1 + 5));
      var b := GenStmt(s.body, PushTargets(i.st, l1 + 4, l1 + 1));
      forall l: nat :: Count(b.code, l) > 0 ==> l >= l1 + 5
  {
    var l1 := g.labelCounter;
    var i := GenStmt(s.init.value, g.(labelCounter := l1 + 5));
    LabelsTakenDuring(s.body, PushTargets(i.st, l1 + 4, l1 + 1));
  }

  /** Each of the five labels of a for loop is defined exactly once in its code. */
  lemma ForLabelsOnce(s: Stmt, g: GenState)
    requires s.For? && GenerableIn(s, g)
    ensures var r := GenStmt(s, g); var l1 := g.labelCounter;
      Count(r.code, l1) == 1 && Count(r.code, l1 + 1) == 1 && Count(r.code, l1 + 2) == 1
      && Count(r.code, l1 + 3) == 1 && Count(r.code, l1 + 4) == 1
  {
    StmtAccounted(s, g);
  }

  lemma PrefixWithin(a: seq<Quad>, b: seq<Quad>, k: nat)
    requires k <= |a|
    ensures (a + b)[..k] == a[..k]
  {
  }

  lemma ForHeadStart(s: Stmt, i: seq<Quad>, l1: nat)
    requires s.For? && s.forCond.Some? && s.inc.Some?
    requires ExprGenerable(s.forCond.value) && ExprGenerable(s.inc.value)
    ensures |ForHead(s, i, l1)| > |i| && ForHead(s, i, l1)[..|i| + 1] == i + [LabelDef(l1)]
  {
    var start := i + [LabelDef(l1)];
    var rest := ExprCode(s.forCond.value) + [Plain("JMP", LabelRef(l1 + 3)), LabelDef(l1 + 1)]
      + ExprCode(s.inc.value) + [Plain("JMP", LabelRef(l1)), LabelDef(l1 + 2)];
    assert ForHead(s, i, l1) == start + rest;
    PrefixWithin(start, rest, |start|);
  }

  /** Any code followed by ForTail(l1) ends with the five lines of that tail. */
  lemma EndsWithForTail(c: seq<Quad>, l1: nat)
    requires exists a :: c == a + ForTail(l1)
    ensures |c| >= 5
      && c[|c| - 5..] == [Plain("JMP", LabelRef(l1 + 1)), LabelDef(l1 + 3), Plain("JZ", LabelRef(l1 + 4)),
                         Plain("JMP", LabelRef(l1 + 2)), LabelDef(l1 + 4)]
  {
    var a :| c == a + ForTail(l1);
    assert c[|a|..] == ForTail(l1);
  }

  /** The code of a for loop: its head, its body with break bound to L5 and continue to L2, its tail. */
  lemma ForUnfold(s: Stmt, g: GenState)
    requires s.For? && GenerableIn(s, g)
    ensures var l1 := g.labelCounter; var i := GenStmt(s.init.value, g.(labelCounter := l1 + 5));
      GenStmt(s, g).code == ForHead(s, i.code, l1) + GenStmt(s.body, PushTargets(i.st, l1 + 4, l1 + 1)).code + ForTail(l1)
  {
    var l1 := g.labelCounter;
    var i := GenStmt(s.init.value, g.(labelCounter := l1 + 5));
    var b := GenStmt(s.body, PushTargets(i.st, l1 + 4, l1 + 1));
    assert GenFor(s, g) == GenOut(ForHead(s, i.code, l1) + b.code + ForTail(l1), PopTargets(b.st));
    assert GenStmt(s, g) == GenFor(s, g);
  }

  /** A for loop's code starts with the init code and then L1:. */
  lemma ForStartsWithInit(s: Stmt, g: GenState)
    requires s.For? && GenerableIn(s, g)
    ensures var r := GenStmt(s, g); var l1 := g.labelCounter;
      var i := GenStmt(s.init.value, g.(labelCounter := l1 + 5));
      |r.code| > |i.code| && r.code[..|i.code| + 1] == i.code + [LabelDef(l1)]
  {
    var l1 := g.labelCounter;
    var i := GenStmt(s.init.value, g.(labelCounter := l1 + 5));
    var b := GenStmt(s.body, PushTargets(i.st, l1 + 4, l1 + 1));
    var r := GenStmt(s, g);
    assert r == GenFor(s, g);
    var h := ForHead(s, i.code, l1);
    ForHeadStart(s, i.code, l1);
    PrefixWithin(h, b.code + ForTail(l1), |i.code| + 1);
    assert r.code == h + (b.code + ForTail(l1));
  }

  /** A for loop's code ends with JMP L2, then the dispatcher L4: JZ L5 JMP L3, then the exit L5:. */
  lemma ForEndsWithDispatcher(s: Stmt, g: GenState)
    requires s.For? && GenerableIn(s, g)
    ensures var r := GenStmt(s, g); var l1 := g.labelCounter; var n := |r.code|;
      n >= 5
      && r.code[n - 5..] == [Plain("JMP", LabelRef(l1 + 1)), LabelDef(l1 + 3), Plain("JZ", LabelRef(l1 + 4)),
                            Plain("JMP", LabelRef(l1 + 2)), LabelDef(l1 + 4)]
  {
    ForUnfold(s, g);
    EndsWithForTail(GenStmt(s, g).code, g.labelCounter);
  }

  /** A break directly in a for body jumps to L5, past the loop. */
  lemma ForBreak(s: Stmt, g: GenState)
    requires s.For? && s.body == Break && GenerableIn(s, g)
    ensures GenStmt(s, g).code
      == ForHead(s, GenStmt(s.init.value, g.(labelCounter := g.labelCounter + 5)).code, g.labelCounter)
         + [Plain("JMP", LabelRef(g.labelCounter + 4))] + ForTail(g.labelCounter)
  {
    var l1 := g.labelCounter;
    var i := GenStmt(s.init.value, g.(labelCounter := l1 + 5));
    var gb := PushTargets(i.st, l1 + 4, l1 + 1);
    assert GenStmt(Break, gb).code == [Plain("JMP", LabelRef(l1 + 4))];
    var r := GenFor(s, g);
    assert r.code == ForHead(s, i.code, l1) + GenStmt(Break, gb).code + ForTail(l1);
    assert GenStmt(s, g) == r;
  }

  /** A continue directly in a for body jumps to L2, the increment block. */
  lemma ForContinue(s: Stmt, g: GenState)
    requires s.For? && s.body == Continue && GenerableIn(s, g)
    ensures GenStmt(s, g).code
      == ForHead(s, GenStmt(s.init.value, g.(labelCounter := g.labelCounter + 5)).code, g.labelCounter)
         + [Plain("JMP", LabelRef(g.labelCounter + 1))] + ForTail(g.labelCounter)
  {
    var l1 := g.labelCounter;
    var i := GenStmt(s.init.value, g.(labelCounter := l1 + 5));
    var gb := PushTargets(i.st, l1 + 4, l1 + 1);
    assert GenStmt(Continue, gb).code == [Plain("JMP", LabelRef(l1 + 1))];
    assert GenStmt(s, g) == GenFor(s, g);
  }

  // ---------------------------------------------------------------------------
  // switch and case
  // ---------------------------------------------------------------------------

  /** The code of a switch: the condition, POP into SWITCH_COND@L1, the body with break bound to L1, L1:. */
  lemma SwitchUnfold(s: Stmt, g: GenState)
    requires s.Switch? && GenerableIn(s, g)
    ensures var l1 := g.labelCounter;
      GenStmt(s, g).code
      == ExprCode(s.cond) + [Typed(Pop, s.cond.ty, SwitchCond(l1))]
         + GenStmt(s.body, g.(labelCounter := l1 + 1, breakLabels := g.breakLabels + [l1])).code + [LabelDef(l1)]
  {
    assert GenStmt(s, g) == GenSwitch(s, g);
  }

  /**
   * A switch pops its condition into SWITCH_COND@L1 right after the
   * condition's code, then holds its body, generated with L1 as the innermost
   * break target; it ends with L1:, defined once, and leaves the break stack
   * as it found it.
   */
  lemma SwitchLayout(s: Stmt, g: GenState)
    requires s.Switch? && GenerableIn(s, g)
    ensures var r := GenStmt(s, g); var e := ExprCode(s.cond); var l1 := g.labelCounter;
      var b := GenStmt(s.body, g.(labelCounter := l1 + 1, breakLabels := g.breakLabels + [l1]));
      |r.code| == |e| + |b.code| + 2 && r.code[..|e|] == e
      && r.code[|e|] == Typed(Pop, s.cond.ty, SwitchCond(l1))
      && r.code[|e| + 1..|r.code| - 1] == b.code
      && r.code[|r.code| - 1] == LabelDef(l1) && Count(r.code, l1) == 1
      && r.st.breakLabels == g.breakLabels && r.st.continueLabels == g.continueLabels
  {
    StmtAccounted(s, g);
    var l1 := g.labelCounter;
    SwitchUnfold(s, g);
    SwitchShape(ExprCode(s.cond), Typed(Pop, s.cond.ty, SwitchCond(l1)),
                GenStmt(s.body, g.(labelCounter := l1 + 1, breakLabels := g.breakLabels + [l1])).code, LabelDef(l1));
  }

  /** Where the parts of a switch's code lie, for any condition and body code. */
  lemma SwitchShape(e: seq<Quad>, pop: Quad, b: seq<Quad>, last: Quad)
    ensures var c := e + [pop] + b + [last];
      |c| == |e| + |b| + 2 && c[..|e|] == e && c[|e|] == pop && c[|e| + 1..|c| - 1] == b && c[|c| - 1] == last
  {
    var c := (e + [pop]) + (b + [last]);
    assert c[..|e|] == e;
    assert c[|e| + 1..|c| - 1] == b;
  }

  /** A valued case directly in a switch body compares against the slot the switch popped its condition into. */
  lemma CaseReadsSwitchSlot(s: Stmt, g: GenState)
    requires s.Switch? && s.body.CaseLabel? && s.body.value.Some? && GenerableIn(s, g)
    ensures var r := GenStmt(s, g); var e := ExprCode(s.cond);
      |r.code| > |e| + 1
      && r.code[|e|] == Typed(Pop, s.cond.ty, SwitchCond(g.labelCounter))
      && r.code[|e| + 1] == Typed(Push, s.body.value.value.ty, SwitchCond(g.labelCounter))
  {
    var l1 := g.labelCounter;
    var gb := g.(labelCounter := l1 + 1, breakLabels := g.breakLabels + [l1]);
    var k := GenStmt(s.body, gb);
    var e := ExprCode(s.cond);
    var c := e + [Typed(Pop, s.cond.ty, SwitchCond(l1))] + k.code + [LabelDef(l1)];
    assert GenSwitch(s, g).code == c;
    assert GenStmt(s, g) == GenSwitch(s, g);
    assert k == GenCase(s.body, gb);
    assert k.code[0] == Typed(Push, s.body.value.value.ty, SwitchCond(l1));
    assert c[|e|] == Typed(Pop, s.cond.ty, SwitchCond(l1)) && c[|e| + 1] == k.code[0];
  }

  /** The code of a while loop: L1:, the condition, JZ L2, the body with break bound to L2 and continue to L1, JMP L1, L2:. */
  lemma WhileUnfold(s: Stmt, g: GenState)
    requires s.While? && GenerableIn(s, g)
    ensures var l1 := g.labelCounter;
      GenStmt(s, g).code
      == [LabelDef(l1)] + ExprCode(s.cond) + [Plain("JZ", LabelRef(l1 + 1))]
         + GenStmt(s.body, PushTargets(g.(labelCounter := l1 + 2), l1 + 1, l1)).code
         + [Plain("JMP", LabelRef(l1)), LabelDef(l1 + 1)]
  {
    assert GenStmt(s, g) == GenWhile(s, g);
  }

  /** A switch whose body is a single break or continue: the jump sits between the store of the condition and L1:. */
  lemma SwitchOfJump(s: Stmt, g: GenState)
    requires s.Switch? && (s.body == Break || (s.body == Continue && |g.continueLabels| > 0)) && GenerableIn(s, g)
    ensures var l1 := g.labelCounter;
      GenStmt(s, g).code
      == ExprCode(s.cond) + [Typed(Pop, s.cond.ty, SwitchCond(l1))]
         + [Plain("JMP", LabelRef(if s.body == Break then l1 else Top(g.continueLabels)))] + [LabelDef(l1)]
  {
    var l1 := g.labelCounter;
    var gs := g.(labelCounter := l1 + 1, breakLabels := g.breakLabels + [l1]);
    assert GenStmt(s.body, gs).code == [Plain("JMP", LabelRef(if s.body == Break then l1 else Top(g.continueLabels)))];
    assert GenStmt(s, g) == GenSwitch(s, g);
  }

  /** Inside a switch inside a while loop, a break leaves the switch: it jumps to the switch's L1, the third label taken. */
  lemma BreakInSwitchInWhile(s: Stmt, g: GenState)
    requires s.While? && s.body.Switch? && s.body.body == Break && GenerableIn(s, g) && ExprGenerable(s.body.cond)
    ensures GenStmt(s, g).code
      == [LabelDef(g.labelCounter)] + ExprCode(s.cond) + [Plain("JZ", LabelRef(g.labelCounter + 1))]
         + (ExprCode(s.body.cond) + [Typed(Pop, s.body.cond.ty, SwitchCond(g.labelCounter + 2))]
            + [Plain("JMP", LabelRef(g.labelCounter + 2))] + [LabelDef(g.labelCounter + 2)])
         + [Plain("JMP", LabelRef(g.labelCounter)), LabelDef(g.labelCounter + 1)]
  {
    var l1 := g.labelCounter;
    WhileUnfold(s, g);
    SwitchOfJump(s.body, PushTargets(g.(labelCounter := l1 + 2), l1 + 1, l1));
  }

  /** Inside a switch inside a while loop, a continue still goes back to the loop's L1: the switch pushes no continue target. */
  lemma ContinueInSwitchInWhile(s: Stmt, g: GenState)
    requires s.While? && s.body.Switch? && s.body.body == Continue && GenerableIn(s, g) && ExprGenerable(s.body.cond)
    ensures GenStmt(s, g).code
      == [LabelDef(g.labelCounter)] + ExprCode(s.cond) + [Plain("JZ", LabelRef(g.labelCounter + 1))]
         + (ExprCode(s.body.cond) + [Typed(Pop, s.body.cond.ty, SwitchCond(g.labelCounter + 2))]
            + [Plain("JMP", LabelRef(g.labelCounter))] + [LabelDef(g.labelCounter + 2)])
         + [Plain("JMP", LabelRef(g.labelCounter)), LabelDef(g.labelCounter + 1)]
  {
    var l1 := g.labelCounter;
    WhileUnfold(s, g);
    SwitchOfJump(s.body, PushTargets(g.(labelCounter := l1 + 2), l1 + 1, l1));
  }

  /** A default label takes no label and emits exactly its statement's code. */
  lemma DefaultIsBody(body: Stmt, g: GenState)
    requires GenerableIn(body, g)
    ensures GenStmt(CaseLabel(None, body), g) == GenStmt(body, g)
  {
  }

  /**
   * A valued case pushes SWITCH_COND@ of the innermost break target, then its
   * value, EQUAL and JZ L1 with L1 the counter on entry; its statement's code
   * follows and L1:, defined once, ends it.
   */
  lemma CaseLayout(s: Stmt, g: GenState)
    requires s.CaseLabel? && s.value.Some? && GenerableIn(s, g)
    ensures |g.breakLabels| > 0
    ensures var r := GenStmt(s, g); var v := s.value.value; var e := ExprCode(v); var l1 := g.labelCounter;
      var b := GenStmt(s.body, g.(labelCounter := l1 + 1));
      |r.code| == |e| + |b.code| + 4
      && r.code[0] == Typed(Push, v.ty, SwitchCond(Top(g.breakLabels))) && r.code[1..|e| + 1] == e
      && r.code[|e| + 1] == Typed(Equal, v.ty, NoOperand) && r.code[|e| + 2] == Typed(Jz, Bool, LabelRef(l1))
      && r.code[|e| + 3..|r.code| - 1] == b.code && r.code[|r.code| - 1] == LabelDef(l1)
      && Count(r.code, l1) == 1
  {
    StmtAccounted(s, g);
    var r := GenStmt(s, g);
    var v := s.value.value;
    var e := ExprCode(v);
    var l1 := g.labelCounter;
    var b := GenStmt(s.body, g.(labelCounter := l1 + 1));
    var head := [Typed(Push, v.ty, SwitchCond(Top(g.breakLabels)))] + e
                + [Typed(Equal, v.ty, NoOperand), Typed(Jz, Bool, LabelRef(l1))];
    assert r == GenCase(s, g);
    assert r.code == head + b.code + [LabelDef(l1)];
  }

  // ---------------------------------------------------------------------------
  // functions
  // ---------------------------------------------------------------------------

  /** With declareFuncParams set, the parameters' code is one POP per parameter, in declaration order. */
  lemma {:induction false} ParamsPopInOrder(ps: seq<VarDecl>)
    requires forall i :: 0 <= i < |ps| ==> DeclGenerable(ps[i])
    ensures |ParamsCode(ps, true)| == |ps|
    ensures forall i :: 0 <= i < |ps| ==> ParamsCode(ps, true)[i] == Plain("POP", Name(ps[i].name))
  {
    if ps != [] {
      ParamsPopInOrder(ps[..|ps| - 1]);
    }
  }

  /**
   * A function's code starts with PROC and ends with ENDP, both naming it; the
   * parameters' POPs follow PROC; afterwards declareFuncParams is clear and
   * both target stacks are as before.
   */
  lemma FunctionBrackets(s: Stmt, g: GenState)
    requires s.FunctionDef? && GenerableIn(s, g)
    ensures var r := GenStmt(s, g); var n := |r.code|; var p := ParamsCode(s.params, true);
      n >= |p| + 2 && r.code[0] == Plain("PROC", Name(s.name)) && r.code[1..|p| + 1] == p
      && r.code[n - 1] == Plain("ENDP", Name(s.name))
      && !r.st.declareFuncParams
      && r.st.breakLabels == g.breakLabels && r.st.continueLabels == g.continueLabels
  {
    var r := GenStmt(s, g);
    var p := ParamsCode(s.params, true);
    var b := GenSeq(s.fnBody, g.(declareFuncParams := false));
    assert r == GenFunction(s, g);
    assert g.(declareFuncParams := true).(declareFuncParams := false) == g.(declareFuncParams := false);
    assert r.code == [Plain("PROC", Name(s.name))] + p + b.code + [Plain("ENDP", Name(s.name))];
  }
}
