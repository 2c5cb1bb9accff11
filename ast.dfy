/**
 * The parse tree the two walks consume (the node classes of src/parse_tree), as values.
 * Children are owned by value; a null child is `None`.
 */
module Ast {
  import opened Wrappers
  import opened Consts

  /** The resolved callee that call analysis stores in FunctionCallNode::func and generation reads. */
  datatype Callee = Callee(alias: string, paramTypes: seq<DataType>)

  /**
   * An expression node. `ty` is the node's `type` field as the analyzer leaves it;
   * only the generator reads it.
   */
  datatype Expr = Expr(node: ExprNode, ty: DataType)

  datatype ExprNode =
    | Ident(name: string)
    | Literal(text: string, litType: DataType)
    | AssignOp(target: string, value: Expr)
    | BinaryOp(opr: Operator, lhs: Expr, rhs: Expr)
    | UnaryOp(opr: Operator, operand: Expr)
    | Call(callee: string, args: seq<Expr>, resolved: Callee)

  /** A variable or constant declaration; also a function parameter. */
  datatype VarDecl = VarDecl(dtype: DataType, name: string, value: Option<Expr>, isConst: bool)

  datatype Stmt =
    | Block(stmts: seq<Stmt>)
    | Decl(decl: VarDecl)
    | If(cond: Expr, thenBody: Stmt, elseBody: Option<Stmt>)
    | While(cond: Expr, body: Stmt)
    | DoWhile(cond: Expr, body: Stmt)
    | For(init: Option<Stmt>, forCond: Option<Expr>, inc: Option<Expr>, body: Stmt)
    | Switch(cond: Expr, body: Stmt)
    | CaseLabel(value: Option<Expr>, body: Stmt)
    | Break
    | Continue
    | FunctionDef(retType: DataType, name: string, params: seq<VarDecl>, fnBody: seq<Stmt>)
    | ErrorStmt
    | ExprStmt(expr: Expr)
}
