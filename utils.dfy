/**
 * The enum-to-string maps of src/utils/utils.h and the type predicates the
 * nodes call on Utils.
 */
module Utils {
  import opened Consts

  /** The token text of an operator; "#" for the four quadruple-only opcodes, which have no case. */
  function OprToStr(op: Operator): (s: string)
    ensures s == "#" <==> op in {Push, Pop, Jmp, Jz}
    ensures |s| > 0
  {
    match op
    case Assign => "="
    case Add | UPlus => "+"
    case Sub | UMinus => "-"
    case Mul => "*"
    case Div => "/"
    case Mod => "%"
    case PreInc | SufInc => "++"
    case PreDec | SufDec => "--"
    case And => "&"
    case Or => "|"
    case Xor => "^"
    case Not => "~"
    case Shl => "<<"
    case Shr => ">>"
    case LogicalAnd => "&&"
    case LogicalOr => "||"
    case LogicalNot => "!"
    case Greater => ">"
    case GreaterEqual => ">="
    case Less => "<"
    case LessEqual => "<="
    case Equal => "=="
    case NotEqual => "!="
    case Push | Pop | Jmp | Jz => "#"
  }

  /** The user-visible name of a data type; "unknown" for the two sentinel types without a case. */
  function DtypeToStr(t: DataType): (s: string)
    ensures s == "unknown" <==> t in {FuncPtr, ErrorType}
  {
    match t
    case Int => "int"
    case Float => "float"
    case Char => "char"
    case Bool => "bool"
    case Void => "void"
    case FuncPtr | ErrorType => "unknown"
  }

  /** Utils::isIntegerType, which the nodes call; this model assumes it holds for the integer family BOOL, CHAR, INT. */
  predicate IsIntegerType(t: DataType)
  {
    t == Bool || t == Char || t == Int
  }

  /** The result type of a binary operator: the operand of greater rank ("the wider type wins"). */
  function Wider(a: DataType, b: DataType): (r: DataType)
    ensures r == a || r == b
    ensures Rank(r) >= Rank(a) && Rank(r) >= Rank(b)
  {
    if Rank(a) >= Rank(b) then a else b
  }

  /** Every source-language operator, ASSIGN through NOT_EQUAL, has a real token. */
  lemma SourceOperatorsHaveTokens()
    ensures forall i :: 0 <= i < 27 ==> OprToStr(AllOperators[i]) != "#"
  {
    OperatorCodesConsecutive();
    forall i | 0 <= i < 27 ensures OprToStr(AllOperators[i]) != "#" {
      assert AllOperators[i] !in {Push, Pop, Jmp, Jz};
    }
  }

  /** Binary and unary plus and minus share a token, and so do the pre- and suffix forms of ++ and --. */
  lemma SharedTokens()
    ensures OprToStr(Add) == OprToStr(UPlus) == "+"
    ensures OprToStr(Sub) == OprToStr(UMinus) == "-"
    ensures OprToStr(PreInc) == OprToStr(SufInc) == "++"
    ensures OprToStr(PreDec) == OprToStr(SufDec) == "--"
  {
  }

  /** The five real data types get five distinct names. */
  lemma RealTypeNamesDistinct(a: DataType, b: DataType)
    requires a !in {FuncPtr, ErrorType} && b !in {FuncPtr, ErrorType}
    ensures DtypeToStr(a) == DtypeToStr(b) ==> a == b
  {
  }

  /**
   * Among the numeric types the wider one is the later one in BOOL < CHAR < INT < FLOAT,
   * and ERROR, the last type of all, absorbs every type in either order.
   */
  lemma WiderExamples()
    ensures Wider(Int, Float) == Float && Wider(Float, Int) == Float
    ensures Wider(Bool, Char) == Char && Wider(Char, Bool) == Char
    ensures forall t: DataType :: Wider(t, ErrorType) == ErrorType && Wider(ErrorType, t) == ErrorType
  {
  }
}
