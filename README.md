# A model of the C-like compiler's semantic analyzer and quadruple generator

The compiler (OmarBazaraa/Compiler) parses a small C-like language into a tree
of nodes and then walks that tree twice:

- `analyze(ScopeContext*)` checks that the program is legal: each node may
  push and pop a scope layer (BLOCK, FUNCTION, LOOP, IF, SWITCH), declare
  symbols in the innermost layer, look names up through all layers, report a
  diagnostic, and return a success flag. The node keeps walking its children
  after a failure (`ret &= child->analyze(...)`), so one bad statement does
  not hide the diagnostics of the next.
- `generateQuad(GenerationContext*)` lowers the checked tree to stack-machine
  quadruples: each construct takes fresh labels from a counter, pushes its
  break and continue targets while its body is generated, and writes its
  jumps and label definitions in a fixed order.

This project models both walks, the enums of `src/utils/consts.h`, and the
enum-to-string maps of `src/utils/utils.h`.

Each walk is modelled twice:

- As functions from a value state to an outcome: `Analysis` over a
  `ScopeState`, and `Generation` and `ExprGen` over a `GenState`.
- As methods of the classes `ScopeContext` and `GenerationContext`, which
  update their fields in place the way the nodes do (`Analyzer` and
  `Generator`). Each method is proved to leave the context exactly in the
  state that the matching function computes.

The properties are proved about the functions.

- `AnalysisProps` proves the frame of the analysis. A statement returns the
  scope stack and the functions stack as it found them, and only appends
  diagnostics. It returns true exactly when it added none. The innermost
  switch's case count grows by exactly the case labels the statement owns.
- `AnalysisRules` proves the individual legality rules, one per diagnostic.
- `GenerationProps` proves the label discipline of the generator. The
  labels a construct defines are exactly the ones it took from the counter,
  each defined once. Every jump goes to one of those labels or to an
  enclosing break or continue target. A whole program therefore defines
  L0 … Ln-1 once each, and every jump goes to a defined label.
- `GenerationLayout` proves where each construct puts its labels and
  jumps, and where a `break` and a `continue` lead.

Emitted instructions are values of type `Quad`, one per instruction. The helpers `Utils::oprToQuad`,
`Utils::binOprToQuad` and `Utils::dtypeConvQuad` are kept symbolic.
Diagnostics are values of type `ErrorKind` appended to the context's error
list. Their message text is not modelled.

## Model

| member | source | states |
|---|---|---|
| Consts.OperatorCode | src/utils/consts.h:7-39 | every operator has a value in 100..130 |
| Consts.OperatorCodesConsecutive | src/utils/consts.h:7-39 | the 31 operators take 100, 101, … in declaration order, ASSIGN first and JZ last |
| Consts.OperatorCodesDistinct | src/utils/consts.h:7-39 | the operator values are pairwise distinct, and each value gives back its operator |
| Consts.Rank | src/utils/consts.h:47-55 | every data type has a value in 300..306 |
| Consts.RanksFollowDeclarationOrder | src/utils/consts.h:47-55 | data-type values follow the order in which the enum declares them, so comparing values compares positions |
| Consts.NumericRanksConsecutive | src/utils/consts.h:49-52 | BOOL < CHAR < INT < FLOAT are consecutive; VOID lies below them; FUNC_PTR and then ERROR lie above |
| Consts.ScopeCode | src/utils/consts.h:60-66 | every scope type has a value in 500..504 |
| Consts.ScopeCodesConsecutive | src/utils/consts.h:60-66 | the scope values are consecutive from 500 and pairwise distinct |
| Consts.CodeRangesDisjoint | src/utils/consts.h:7-66 | no operator, data type and scope type share a value |
| Utils.OprToStr | src/utils/utils.h:44-99 | the result is "#" exactly for PUSH, POP, JMP and JZ, which have no case; otherwise it is a non-empty token |
| Utils.SourceOperatorsHaveTokens | src/utils/utils.h:44-99 | every source-language operator, ASSIGN through NOT_EQUAL, maps to a real token |
| Utils.SharedTokens | src/utils/utils.h:48-65 | binary and unary plus share "+", binary and unary minus share "-", and the prefix and suffix forms of ++ and -- share their tokens |
| Utils.DtypeToStr | src/utils/utils.h:108-123 | the result is "unknown" exactly for FUNC_PTR and ERROR |
| Utils.RealTypeNamesDistinct | src/utils/utils.h:108-123 | the five real data types get five distinct names |
| Utils.Wider | src/utils/consts.h:47-55 | the type of a mixed operation is one of the operands, and its rank is at least that of each operand |
| Utils.WiderExamples | src/utils/consts.h:49-52 | INT with FLOAT gives FLOAT and BOOL with CHAR gives CHAR, in either order; ERROR with any type, in either order, gives ERROR |
| ScopeCtx.HasLoopIn | src/parse_tree/branches/branch_analyzer.cpp:167-174 | true exactly when some LOOP layer has no FUNCTION layer above it |
| ScopeCtx.HasBreakIn | src/parse_tree/branches/branch_analyzer.cpp:158-165 | true exactly when some LOOP or SWITCH layer has no FUNCTION layer above it |
| ScopeCtx.SwitchIn | src/parse_tree/branches/branch_analyzer.cpp:28-33 | a found index is a SWITCH layer with no FUNCTION layer above it; when none is found, every SWITCH layer is cut off by a FUNCTION layer |
| ScopeCtx.LookupIndex | src/parse_tree/function_nodes.h:126-127 | a found layer declares the name; when none is found, no layer declares it |
| ScopeCtx.ScopeState.DeclareSymbol | src/parse_tree/statements/statement_analyzer.cpp:36-39 | it succeeds exactly when the innermost layer does not yet hold the name; on success only that layer's map gains the binding; on failure nothing changes |
| ScopeCtx.ShadowingAllowed | src/parse_tree/statements/statement_analyzer.cpp:36-39 | a name may be declared again in a new inner layer, where it hides the outer one, but not twice in the same layer |
| ScopeCtx.BreakContinueWalk | src/parse_tree/branches/branch_analyzer.cpp:158-174 | a SWITCH layer allows break but not continue; a LOOP layer allows both; a FUNCTION layer hides every enclosing loop and switch |
| ScopeCtx.ScopeContext.AddScope | src/parse_tree/branches/branch_analyzer.cpp:13 | the context gains one innermost layer of the given kind and nothing else changes |
| ScopeCtx.ScopeContext.PopScope | src/parse_tree/branches/branch_analyzer.cpp:22 | the innermost layer is dropped and nothing else changes |
| ScopeCtx.ScopeContext.PrintError | src/parse_tree/branches/branch_analyzer.cpp:7 | one diagnostic is appended and nothing else changes |
| ScopeCtx.ScopeContext.DeclareSymbol | src/parse_tree/function_nodes.h:52 | the result and the new context are those of ScopeState.DeclareSymbol |
| ScopeCtx.ScopeContext.SetSwitchState | src/parse_tree/branches/branch_analyzer.cpp:37 | the switch state of the given layer is replaced, as a write through the reference getSwitchScope returns |
| ScopeCtx.ScopeContext.MarkUsed | src/parse_tree/function_nodes.h:164-166 | the function a name resolves to is marked used |
| Analyzer.BuildFunc | src/parse_tree/function_nodes.h:20-32 | the Func symbol carries the return type, the name, and one parameter variable per declared parameter, in order |
| Analyzer.AnalyzeCall | src/parse_tree/function_nodes.h:123-169 | result, type and new context are those of Analysis.AnalyzeCall |
| Analyzer.AnalyzeVarDecl | src/parse_tree/statements/statement_analyzer.cpp:29-63 | result and new context are those of Analysis.AnalyzeVarDecl, stage by stage |
| Analyzer.AnalyzeParams | src/parse_tree/function_nodes.h:60-64 | result and new context are those of Analysis.AnalyzeParams |
| Analyzer.AnalyzeBlock | src/parse_tree/statements/statement_analyzer.cpp:10-27 | result and new context are those of Analysis.AnalyzeBlock |
| Analyzer.AnalyzeStmt | src/parse_tree/branches/branch_analyzer.cpp:158-174 | result and new context are those of Analysis.AnalyzeStmt, for every kind of statement |
| Analyzer.AnalyzeIf | src/parse_tree/branches/branch_analyzer.cpp:5-25 | result and new context are those of Analysis.AnalyzeIf |
| Analyzer.AnalyzeLoop | src/parse_tree/branches/branch_analyzer.cpp:102-136 | result and new context are those of Analysis.AnalyzeLoop, for while and do-while |
| Analyzer.AnalyzeFor | src/parse_tree/branches/branch_analyzer.cpp:138-156 | result and new context are those of Analysis.AnalyzeFor |
| Analyzer.AnalyzeSwitch | src/parse_tree/branches/branch_analyzer.cpp:76-100 | result and new context are those of Analysis.AnalyzeSwitch |
| Analyzer.AnalyzeCase | src/parse_tree/branches/branch_analyzer.cpp:27-74 | result and new context are those of Analysis.AnalyzeCase |
| Analyzer.AnalyzeCaseValue | src/parse_tree/branches/branch_analyzer.cpp:39-61 | result and new context are those of Analysis.AnalyzeCaseValue |
| Analyzer.AnalyzeDefault | src/parse_tree/branches/branch_analyzer.cpp:62-71 | result and new context are those of Analysis.AnalyzeDefault |
| Analyzer.AnalyzeFunction | src/parse_tree/function_nodes.h:44-72 | result and new context are those of Analysis.AnalyzeFunction |
| AnalysisProps.CallSound | src/parse_tree/function_nodes.h:123-169 | a call only appends diagnostics and marks functions used, and it returns true exactly when it reported nothing, the early return included |
| AnalysisProps.ArgsSound | src/parse_tree/function_nodes.h:148-160 | the argument loop only appends diagnostics and marks functions used; it ends true exactly when it started true and reported nothing |
| AnalysisProps.GlobalRejected | src/parse_tree/branches/branch_analyzer.cpp:6-9 | at global scope, failing with one NotAllowedInGlobal diagnostic and no other change meets StmtSound's guarantee |
| AnalysisProps.VarDeclSound | src/parse_tree/statements/statement_analyzer.cpp:29-63 | a declaration keeps the layer kinds and the functions stack, only appends diagnostics, succeeds exactly when it reported nothing, and adds to no switch's count |
| AnalysisProps.ParamsSound | src/parse_tree/function_nodes.h:60-64 | the same for the parameter loop |
| AnalysisProps.SeqSound | src/parse_tree/statements/statement_analyzer.cpp:20-22 | the same for a statement sequence; its switch count grows by the labels of all its statements |
| AnalysisProps.BlockSound | src/parse_tree/statements/statement_analyzer.cpp:10-27 | StmtSound for a block: the BLOCK layer it pushes is gone afterwards |
| AnalysisProps.StmtSound | src/parse_tree/branches/branch_analyzer.cpp:5-174 | every statement leaves the same scope layers, of the same kinds, and the same functions stack; it only appends diagnostics and returns true exactly when it added none; the innermost enclosing switch counts exactly the case labels the statement owns; below global scope declareFuncParams is kept |
| AnalysisProps.IfSound | src/parse_tree/branches/branch_analyzer.cpp:5-25 | StmtSound for an if statement |
| AnalysisProps.IfBranchesSound | src/parse_tree/branches/branch_analyzer.cpp:15-20 | StmtSound for the condition and both branches inside the IF layer |
| AnalysisProps.LoopSound | src/parse_tree/branches/branch_analyzer.cpp:102-136 | StmtSound for while and do-while |
| AnalysisProps.OptExprSound | src/parse_tree/branches/branch_analyzer.cpp:149-150 | an absent for-head changes nothing; a present one only appends diagnostics |
| AnalysisProps.ForHeadsSound | src/parse_tree/branches/branch_analyzer.cpp:148-150 | StmtSound for the three optional heads of a for loop |
| AnalysisProps.ForInnerSound | src/parse_tree/branches/branch_analyzer.cpp:146-153 | StmtSound for the heads and body inside the LOOP layer |
| AnalysisProps.ForSound | src/parse_tree/branches/branch_analyzer.cpp:138-156 | StmtSound for a for loop |
| AnalysisProps.SwitchInnerSound | src/parse_tree/branches/branch_analyzer.cpp:86-97 | StmtSound inside the SWITCH layer: the switch's own layer counts the labels of its body |
| AnalysisProps.SwitchSound | src/parse_tree/branches/branch_analyzer.cpp:76-100 | StmtSound for a switch: the labels of its body do not reach an enclosing switch |
| AnalysisProps.CaseValueSound | src/parse_tree/branches/branch_analyzer.cpp:39-61 | StmtSound for a valued case after its count was taken |
| AnalysisProps.DefaultSound | src/parse_tree/branches/branch_analyzer.cpp:62-71 | StmtSound for a default label: the switch's default flag becomes set |
| AnalysisProps.CaseSound | src/parse_tree/branches/branch_analyzer.cpp:27-74 | StmtSound for a case label: it adds one to its switch's count |
| AnalysisProps.FunctionSound | src/parse_tree/function_nodes.h:44-72 | StmtSound for a function definition: its scope and its entry on the functions stack are gone afterwards |
| AnalysisRules.BreakRule | src/parse_tree/branches/branch_analyzer.cpp:158-165 | break succeeds exactly when a LOOP or SWITCH layer is reached before a FUNCTION layer; otherwise it adds exactly its diagnostic |
| AnalysisRules.ContinueRule | src/parse_tree/branches/branch_analyzer.cpp:167-174 | continue succeeds exactly when a LOOP layer is reached before a FUNCTION layer; a SWITCH layer does not count |
| AnalysisRules.ErrorNodeFails | src/parse_tree/statements/statement_analyzer.cpp:5-8 | an error node always fails and reports |
| AnalysisRules.GlobalRejection | src/parse_tree/branches/branch_analyzer.cpp:5-9 | blocks, ifs, loops and switches at global scope fail with a diagnostic naming the construct, and push no scope |
| AnalysisRules.BreakInWhileBody | src/parse_tree/branches/branch_analyzer.cpp:102-118 | a while loop whose body is a break fails exactly when its condition fails |
| AnalysisRules.ContinueInSwitchBody | src/parse_tree/branches/branch_analyzer.cpp:76-100 | a continue in a switch body is legal exactly when the switch sits in a loop |
| AnalysisRules.SeqAppend | src/parse_tree/statements/statement_analyzer.cpp:20-22 | a sequence is analyzed statement after statement, whatever the earlier ones returned |
| AnalysisRules.SeqReportsErrorNode | src/parse_tree/statements/statement_analyzer.cpp:20-22 | an error node anywhere in a sequence is reported, even after earlier failures |
| AnalysisRules.FunctionOutsideGlobal | src/parse_tree/function_nodes.h:45-48 | below global scope a function definition fails, reports, and changes nothing else |
| AnalysisRules.FunctionRedeclaredRule | src/parse_tree/function_nodes.h:52-55 | a function whose name is already declared fails, and its first new diagnostic is the redeclaration |
| AnalysisRules.FunctionBodyAnalyzed | src/parse_tree/function_nodes.h:52-66 | declared or not, a function's body is analyzed: an error node in it is reported |
| AnalysisRules.FunctionClearsFlag | src/parse_tree/function_nodes.h:60-64 | declareFuncParams is clear once a function definition has been analyzed |
| AnalysisRules.ParamsReportDefaults | src/parse_tree/statements/statement_analyzer.cpp:47-50 | while the flag is set, a parameter with a default value is reported |
| AnalysisRules.FunctionRejectsDefaults | src/parse_tree/function_nodes.h:60-64 | a function with a defaulted parameter fails with DefaultParameter among its diagnostics |
| AnalysisRules.DeclareVarRule | src/parse_tree/statements/statement_analyzer.cpp:32-39 | the declaration stage succeeds exactly for a non-void type and a name not yet in the innermost layer; when it fails no name is bound |
| AnalysisRules.LaterStagesKeep | src/parse_tree/statements/statement_analyzer.cpp:41-45 | the initializer stage keeps every bound name and variable binding, the switch records, the layer kinds and declareFuncParams; diagnostics only grow |
| AnalysisRules.VoidDeclRule | src/parse_tree/statements/statement_analyzer.cpp:32-35 | a void declaration fails with DeclaredVoid first and declares nothing |
| AnalysisRules.RedeclaredVarRule | src/parse_tree/statements/statement_analyzer.cpp:36-39 | a name already in the innermost layer fails with VariableRedeclared first and declares nothing |
| AnalysisRules.DeclaredVarRule | src/parse_tree/statements/statement_analyzer.cpp:36-39 | otherwise the name is bound in the innermost layer to the declared variable, and no other layer's names change |
| AnalysisRules.InitializerFlagRule | src/parse_tree/statements/statement_analyzer.cpp:41-45 | initializeVar is clear after an initializer and untouched without one |
| AnalysisRules.DeclFlagRules | src/parse_tree/statements/statement_analyzer.cpp:47-54 | a parameter with a default value, and a const without initializer outside a parameter list, fail with their diagnostic |
| AnalysisRules.RecordInSwitchRule | src/parse_tree/statements/statement_analyzer.cpp:56-60 | inside a switch an initialized declaration is appended to that switch's list; nothing is recorded elsewhere |
| AnalysisRules.CaseOutsideSwitch | src/parse_tree/branches/branch_analyzer.cpp:28-33 | a case label with no enclosing switch fails, reports, and analyzes nothing else |
| AnalysisRules.CaseValueErrorsRule | src/parse_tree/branches/branch_analyzer.cpp:42-49 | a valued case adds at most one diagnostic of its own: none when its value failed to analyze; otherwise ConstantExpressionRequired exactly for a non-constant value, CaseQuantityNotInteger exactly for a constant of non-integer type |
| AnalysisRules.CaseCounted | src/parse_tree/branches/branch_analyzer.cpp:37-68 | every case or default label adds one to its switch's count, and a default label sets the switch's default flag |
| AnalysisRules.SecondDefaultRule | src/parse_tree/branches/branch_analyzer.cpp:62-66 | a second default label in one switch fails, and its first new diagnostic is MultipleDefaultLabels |
| AnalysisRules.DefaultAgainReported | src/parse_tree/branches/branch_analyzer.cpp:62-71 | a default label analyzed when its switch already has one fails, and MultipleDefaultLabels is the first diagnostic it adds |
| AnalysisRules.SwitchQuantityRule | src/parse_tree/branches/branch_analyzer.cpp:88-93 | a switch whose condition is not of integer type fails and reports it, whether or not the condition's own analysis failed |
| AnalysisRules.SwitchOwnsItsLabels | src/parse_tree/branches/branch_analyzer.cpp:76-100 | a switch's own state ends up counting exactly the labels of its body, and whether one of them was a default label |
| AnalysisRules.CalleeErrorRule | src/parse_tree/function_nodes.h:129-146 | each of the four callee failures (undeclared, not a function, too many arguments, too few) is reported exactly in its case, and none exactly for a function with as many parameters as arguments |
| AnalysisRules.CallRule | src/parse_tree/function_nodes.h:129-146 | a failing callee check gives the call's first diagnostic, and the call fails with type ERROR; otherwise the callee is a function with exactly that many parameters, and the call has its return type |
| AnalysisRules.CallMarksUsed | src/parse_tree/function_nodes.h:162-166 | a call that succeeds leaves its callee marked used; a call that fails leaves exactly the state its argument loop left, so it marks nothing used itself |
| AnalysisRules.ArgsLoopRule | src/parse_tree/function_nodes.h:148-160 | the argument loop analyzes every argument in turn, a failing one included, up to the first argument of unconvertible type; without one it returns the incoming flag joined with every argument's result; with one it stops there, leaves the later arguments unanalyzed, and adds InvalidConversion as its last diagnostic |
| AnalysisRules.ExprStmtRule | src/parse_tree/statements/statement_analyzer.cpp:41-45 | a bare expression statement at global scope fails with one NotAllowedInGlobal diagnostic unless an initializer is being analyzed (the flag set around an initializer); below global scope it succeeds exactly when its expression does |
| ExprGen.ExprCode | src/parse_tree/operator_nodes.h:38-141 | an expression's code neither defines nor jumps to a label |
| ExprGen.ArgBlock | src/parse_tree/function_nodes.h:183-184 | an argument's code with its conversion neither defines nor jumps to a label |
| ExprGen.ArgsCode | src/parse_tree/function_nodes.h:182-185 | the arguments' code neither defines nor jumps to a label |
| ExprGen.GenerateExpr | src/parse_tree/operator_nodes.h:38-141 | the code emitted is ExprCode of the expression |
| ExprGen.GenerateCall | src/parse_tree/function_nodes.h:179-190 | the downward loop emits ExprCode of the call |
| ExprGen.ArgsPushedInReverse | src/parse_tree/function_nodes.h:182-185 | the arguments' code is their blocks in reverse source order: the last argument is pushed first |
| ExprGen.CallCode | src/parse_tree/function_nodes.h:179-190 | a call's code is the arguments last to first, each converted to its parameter's type, then CALL of the callee's alias |
| ExprGen.AssignCode | src/parse_tree/operator_nodes.h:38-41 | assignment is the value's code followed by exactly one POP into the target |
| ExprGen.BinaryCode | src/parse_tree/operator_nodes.h:75-79 | a binary operator is lhs code, rhs code, one operator instruction |
| ExprGen.UnaryCode | src/parse_tree/operator_nodes.h:114-141 | unary minus appends NEG; both increments append PUSH 1, ADD; both decrements append PUSH 1, SUB; every other unary operator emits nothing |
| GenCtx.GenerationContext.NewLabel | src/parse_tree/control_nodes.h:65 | the label returned is the old counter, and the counter grows by one |
| Generation.GenIf | src/parse_tree/control_nodes.h:63-84 | an if leaves both target stacks as it found them, never lowers the label counter, and never newly sets declareFuncParams |
| Generation.GenWhile | src/parse_tree/loop_nodes.h:37-53 | a while leaves both target stacks as it found them, never lowers the label counter, and never newly sets declareFuncParams |
| Generation.GenDoWhile | src/parse_tree/loop_nodes.h:86-102 | a do-while leaves both target stacks as it found them, never lowers the label counter, and never newly sets declareFuncParams |
| Generation.GenFor | src/parse_tree/loop_nodes.h:173-202 | a for loop leaves both target stacks as it found them, never lowers the label counter, and never newly sets declareFuncParams |
| Generation.GenSwitch | src/parse_tree/control_nodes.h:228-242 | a switch leaves both target stacks as it found them, never lowers the label counter, and never newly sets declareFuncParams |
| Generation.GenCase | src/parse_tree/control_nodes.h:158-175 | a case label leaves both target stacks as it found them, never lowers the label counter, and never newly sets declareFuncParams |
| Generation.GenFunction | src/parse_tree/function_nodes.h:84-99 | a function leaves both target stacks as it found them, never lowers the label counter, and never newly sets declareFuncParams |
| Generation.ParamsCode | src/parse_tree/function_nodes.h:90-92 | the parameters' code neither defines nor jumps to a label |
| Generator.GenerateIf | src/parse_tree/control_nodes.h:63-84 | the code and the new context are those of Generation.GenIf |
| Generator.GenerateLoopBody | src/parse_tree/loop_nodes.h:43-49 | the body is generated with its break and continue targets pushed, and both stacks are popped again |
| Generator.GenerateWhile | src/parse_tree/loop_nodes.h:37-53 | the code and the new context are those of Generation.GenWhile |
| Generator.GenerateDoWhile | src/parse_tree/loop_nodes.h:86-102 | the code and the new context are those of Generation.GenDoWhile |
| Generator.NewForLabels | src/parse_tree/loop_nodes.h:174-178 | five consecutive labels are taken from the counter |
| Generator.GenerateForHead | src/parse_tree/loop_nodes.h:180-187 | the code before the body is ForHead of the init code |
| Generator.GenerateFor | src/parse_tree/loop_nodes.h:173-202 | the code and the new context are those of Generation.GenFor |
| Generator.GenerateSwitch | src/parse_tree/control_nodes.h:228-242 | the code and the new context are those of Generation.GenSwitch |
| Generator.GenerateCase | src/parse_tree/control_nodes.h:158-175 | the code and the new context are those of Generation.GenCase |
| Generator.GenerateFunction | src/parse_tree/function_nodes.h:84-99 | the code and the new context are those of Generation.GenFunction |
| GenerationProps.StmtAccounted | src/parse_tree/control_nodes.h:65 | a statement defines exactly the labels it took from the counter, once each, and jumps only to those labels or to an enclosing break or continue target |
| GenerationProps.SeqAccounted | src/parse_tree/function_nodes.h:90-95 | the same for a statement sequence |
| GenerationProps.IfAccounted | src/parse_tree/control_nodes.h:63-84 | the same for an if, with or without else |
| GenerationProps.WhileAccounted | src/parse_tree/loop_nodes.h:37-53 | the same for a while loop |
| GenerationProps.DoWhileAccounted | src/parse_tree/loop_nodes.h:86-102 | the same for a do-while loop |
| GenerationProps.ForAccounted | src/parse_tree/loop_nodes.h:173-202 | the same for a for loop |
| GenerationProps.SwitchAccounted | src/parse_tree/control_nodes.h:228-242 | the same for a switch |
| GenerationProps.CaseAccounted | src/parse_tree/control_nodes.h:158-175 | the same for a case label |
| GenerationProps.FunctionAccounted | src/parse_tree/function_nodes.h:84-99 | the same for a function definition |
| GenerationProps.ProgramLabelsClosed | src/parse_tree/control_nodes.h:65-81 | a program of generable top-level statements defines each of L0 … Ln-1 exactly once, and every jump goes to a defined label |
| GenerationLayout.LabelsTakenDuring | src/parse_tree/loop_nodes.h:38 | every label a statement defines was taken from the counter while it was generated |
| GenerationLayout.IfTestsFirst | src/parse_tree/control_nodes.h:65-68 | an if begins with its condition and then JZ L1, where L1 is the first label it takes; L1 is defined once |
| GenerationLayout.IfWithoutElse | src/parse_tree/control_nodes.h:79-81 | without else, the then-code follows the JZ and the code ends with L1: |
| GenerationLayout.IfElseLabelOrder | src/parse_tree/control_nodes.h:71-72 | with else, L2 is taken after every label of the then-branch, and L2 is defined once |
| GenerationLayout.IfElseUnfold | src/parse_tree/control_nodes.h:63-78 | with else, the code is the condition, JZ L1, the then-code, JMP L2, L1:, the else-code generated from the label after L2, and L2: |
| GenerationLayout.IfElseLayout | src/parse_tree/control_nodes.h:69-77 | with else, the then-code is followed by JMP L2 and L1:, and the else-code, generated once L2 is taken, sits between L1: and the final L2: |
| GenerationLayout.IfElseEndsWithL2 | src/parse_tree/control_nodes.h:77 | with else, the code ends with L2: |
| GenerationLayout.WhileLabels | src/parse_tree/loop_nodes.h:38-52 | a while opens with L1:, closes with JMP L1 and L2:, defines L1 and L2 once each, and its body's labels lie above both |
| GenerationLayout.WhileUnfold | src/parse_tree/loop_nodes.h:38-52 | a while is L1:, the condition, JZ L2, the body generated with break bound to L2 and continue to L1, JMP L1, L2: |
| GenerationLayout.WhileBreak | src/parse_tree/loop_nodes.h:43 | a break directly in a while body jumps to L2, past the loop |
| GenerationLayout.WhileContinue | src/parse_tree/loop_nodes.h:44 | a continue directly in a while body jumps back to L1 |
| GenerationLayout.DoWhileUnfold | src/parse_tree/loop_nodes.h:87-101 | a do-while is L1:, the body generated with break bound to L3 and continue to L2, L2:, the condition, JNZ L1, L3: |
| GenerationLayout.DoWhileLayout | src/parse_tree/loop_nodes.h:87-101 | a do-while opens with L1: and its body; L2: follows the body, then the condition's code; JNZ L1 and L3: close it |
| GenerationLayout.DoWhileLabels | src/parse_tree/loop_nodes.h:87-101 | a do-while defines L1, L2 and L3 once each, and its body's labels lie above all three |
| GenerationLayout.DoWhileBreak | src/parse_tree/loop_nodes.h:90 | a break directly in a do-while body jumps to L3, past the loop |
| GenerationLayout.DoWhileContinue | src/parse_tree/loop_nodes.h:91 | a continue directly in a do-while body jumps to L2, the condition |
| GenerationLayout.ForInitAbove | src/parse_tree/loop_nodes.h:174-180 | the init statement's labels are taken after all five labels of the loop |
| GenerationLayout.ForBodyAbove | src/parse_tree/loop_nodes.h:174-192 | the body's labels are taken after all five labels of the loop |
| GenerationLayout.ForLabelsOnce | src/parse_tree/loop_nodes.h:174-201 | each of the five labels of a for loop is defined exactly once |
| GenerationLayout.ForUnfold | src/parse_tree/loop_nodes.h:180-201 | a for loop is its head, the body generated with break bound to L5 and continue to L2, and its tail |
| GenerationLayout.ForStartsWithInit | src/parse_tree/loop_nodes.h:180-181 | a for loop's code starts with the init code and then L1: |
| GenerationLayout.ForEndsWithDispatcher | src/parse_tree/loop_nodes.h:197-201 | a for loop's code ends with JMP L2, L4:, JZ L5, JMP L3, L5: |
| GenerationLayout.ForBreak | src/parse_tree/loop_nodes.h:189 | a break directly in a for body jumps to L5, past the loop |
| GenerationLayout.ForContinue | src/parse_tree/loop_nodes.h:190 | a continue directly in a for body jumps to L2, the increment block |
| GenerationLayout.SwitchUnfold | src/parse_tree/control_nodes.h:229-241 | a switch is the condition, POP into SWITCH_COND@L1, the body generated with L1 as the innermost break target, and L1: |
| GenerationLayout.SwitchLayout | src/parse_tree/control_nodes.h:229-241 | a switch stores its condition into SWITCH_COND@L1 right after the condition's code, then holds its body generated with L1 as break target, ends with L1: defined once, and restores both stacks |
| GenerationLayout.SwitchOfJump | src/parse_tree/control_nodes.h:233-239 | in a switch whose body is a break, the break jumps to the switch's L1; a continue jumps to the enclosing continue target |
| GenerationLayout.CaseReadsSwitchSlot | src/parse_tree/control_nodes.h:167 | a valued case directly in a switch reads the slot that switch stored its condition in |
| GenerationLayout.BreakInSwitchInWhile | src/parse_tree/control_nodes.h:234 | inside a switch inside a while loop, a break leaves the switch, not the loop |
| GenerationLayout.ContinueInSwitchInWhile | src/parse_tree/control_nodes.h:228-242 | inside a switch inside a while loop, a continue still goes to the loop's L1, because a switch pushes no continue target |
| GenerationLayout.DefaultIsBody | src/parse_tree/control_nodes.h:159-161 | a default label takes no label and emits exactly its statement's code |
| GenerationLayout.CaseLayout | src/parse_tree/control_nodes.h:163-174 | a valued case needs a break target; it is PUSH SWITCH_COND@top, the value, EQUAL, JZ L1, the body, L1:, with L1 defined once |
| GenerationLayout.ParamsPopInOrder | src/parse_tree/function_nodes.h:88-94 | while parameters are declared, their code is one POP per parameter, in declaration order |
| GenerationLayout.FunctionBrackets | src/parse_tree/function_nodes.h:87-96 | a function's code starts with PROC and ends with ENDP, both naming it; the parameters' POPs follow PROC; declareFuncParams is clear afterwards and both stacks are unchanged |

## Left out

- The context classes themselves (`src/context/scope_context.h` and the
  generation context) are not part of this model. Only the interface the
  nodes call is modelled, as the classes `ScopeContext` and
  `GenerationContext` and the layer walks in `ScopeCtx`.
- Analyzer.AnalyzeIdent, Analyzer.AnalyzeExpr, AnalysisProps.IdentSound,
  AnalysisProps.ExprSound: the `analyze` of identifier, literal and operator
  nodes is not modelled from code, so these members have no row in the
  table. This model assumes the following rules for them. An identifier is
  resolved through every layer. Writing to a const or to a function is
  refused. Void operands are refused. The wider operand type wins.
- Analysis.AnalyzeStmt, AnalysisRules.ExprStmtRule: the `analyze` of a bare
  expression statement is not modelled from code. This model assumes it is
  refused at global scope with NotAllowedInGlobal unless an initializer is
  being analyzed, which is the one place `initializeVar` is read.
- Generation.DeclCode, Generator.GenerateDecl, Generator.GenerateBlock,
  Generator.GenerateStmt, Generation.GenSeq, Generation.GenStmt: the
  `generateQuad` of identifiers, literals, blocks, break, continue and
  variable declarations is not modelled from code. This model assumes:
  - Identifiers and literals push their value.
  - A block emits its statements in order.
  - break and continue jump to the top of their stack.
  - A declaration stores its initializer, or pops a parameter while
    parameters are declared.
- The inline `analyze` of IfNode, CaseLabelNode and SwitchNode in
  `src/parse_tree/control_nodes.h`, with its `switches` stack: it is replaced
  by the definitions in `branch_analyzer.cpp`, which are the ones modelled.
  `SwitchNode::populate` is left out for the same reason.
- The commented-out duplicate-case-value check in `CaseLabelNode::analyze`
  is not code, so it is not modelled.
- Diagnostic texts, source locations, the `printf` echo of ErrorNode, and
  all `print`/`toString` methods are left out. A diagnostic is an
  `ErrorKind` value.
- Some generators write to `cout` and others return a string. Both are
  modelled as a returned sequence of `Quad`. The interleaving of the two
  output channels is not modelled.
- Utils::oprToQuad, Utils::binOprToQuad and Utils::dtypeConvQuad are kept
  symbolic, and so is their spelling.
- Generation.GenCase, GenerationLayout.CaseLayout, Generator.GenerateCase:
  a valued case appends `oprToQuad(OPR_EQUAL, …)` with no line end of its
  own (`control_nodes.h:169`), while the PUSH and JZ next to it take their
  operand on the same line (`:167`, `:170`), so oprToQuad writes none either.
  As written, EQUAL and the following `JZ L1` therefore share one output
  line. The model gives EQUAL its own `Quad` and does not capture that
  joined line: it fixes the order of the instructions, not the line breaks.
- The state of a switch (`caseLabelCnt`, `hasDefaultLabel`, the recorded
  initialized variables) lives on the SwitchNode in the source, written
  through `getSwitchScope()` (`branch_analyzer.cpp:37`, `:68`). The model
  keeps it on the SWITCH layer, so it is gone once that layer is popped.
  Nothing in the analysis reads it after the pop. AnalysisRules.SwitchOwnsItsLabels
  states the count before the pop.
- Utils::isIntegerType is not modelled from code. This model assumes it
  holds for the integer family BOOL, CHAR and INT.
- Generation.GenFunction, GenerationLayout.FunctionBrackets: PROC and ENDP
  name `func->alias` (`function_nodes.h:87`, `function_nodes.h:96`), which
  the scope context assigns when the function is declared. The model takes
  the alias to be the function's identifier, so the alias a CALL names
  (ExprGen's callee alias) and the name its PROC carries are not linked by
  any proof.
- Analysis.AnalyzeCall: the assignment `used = valueUsed`
  (`function_nodes.h:162`) is not modelled. The model's expression outcome
  has no `used` flag for a call node.
- Generation.GenFor: ForNode::generateQuad dereferences its init, condition
  and increment unconditionally. The model requires all three (`Generable`)
  rather than modelling a null dereference.
- Generation.GenCase: a valued case reads `breakLabels.top()`, so the model
  requires a break target. A valued case inside a loop that is itself
  inside a switch reads the loop's break label. That is what the code does,
  and the model keeps it.
- ExprGen.ExprCode: FunctionCallNode::generateQuad reads
  `func->paramList[i]` for every argument. The model requires no more
  arguments than parameters (`ExprGenerable`), which analysis guarantees
  for a correct program.
- Analysis.ArgsLoop: the condition at `function_nodes.h:154` parses as
  `(func && void) || funcptr`. It is modelled that way. When the callee is
  not a function, the message's `func->paramList[i]` dereferences null,
  and the model does not capture that dereference.
- Run-time semantics of the quadruples, floating point and integer widths
  are outside both walks and are not modelled.
