/**
 * The three enumerations shared by the whole front end (src/utils/consts.h):
 * operators, data types and scope kinds, with the integer value that the
 * C++ enum gives each constructor.
 */
module Consts {

  /** Operators of the source language, followed by four quadruple-only opcodes. */
  datatype Operator =
    | Assign | Add | UPlus | Sub | UMinus | Mul | Div | Mod
    | PreInc | SufInc | PreDec | SufDec
    | And | Or | Xor | Not | Shl | Shr
    | LogicalAnd | LogicalOr | LogicalNot
    | Greater | GreaterEqual | Less | LessEqual | Equal | NotEqual
    | Push | Pop | Jmp | Jz

  /** Data types; the declaration order is the promotion rank and must not change. */
  datatype DataType = Void | Bool | Char | Int | Float | FuncPtr | ErrorType

  /** Kinds of scope layer. */
  datatype ScopeType = BlockScope | FunctionScope | LoopScope | IfScope | SwitchScope

  /** Every operator, in declaration order. */
  const AllOperators: seq<Operator> :=
    [Assign, Add, UPlus, Sub, UMinus, Mul, Div, Mod,
     PreInc, SufInc, PreDec, SufDec,
     And, Or, Xor, Not, Shl, Shr,
     LogicalAnd, LogicalOr, LogicalNot,
     Greater, GreaterEqual, Less, LessEqual, Equal, NotEqual,
     Push, Pop, Jmp, Jz]

  /** Every data type, in declaration order. */
  const AllDataTypes: seq<DataType> := [Void, Bool, Char, Int, Float, FuncPtr, ErrorType]

  /** Every scope kind, in declaration order. */
  const AllScopeTypes: seq<ScopeType> := [BlockScope, FunctionScope, LoopScope, IfScope, SwitchScope]

  /** The value of an operator: OPR_ASSIGN = 100, each next one one more. */
  function OperatorCode(op: Operator): (c: int)
    ensures 100 <= c <= 130
  {
    match op
    case Assign => 100
    case Add => 101
    case UPlus => 102
    case Sub => 103
    case UMinus => 104
    case Mul => 105
    case Div => 106
    case Mod => 107
    case PreInc => 108
    case SufInc => 109
    case PreDec => 110
    case SufDec => 111
    case And => 112
    case Or => 113
    case Xor => 114
    case Not => 115
    case Shl => 116
    case Shr => 117
    case LogicalAnd => 118
    case LogicalOr => 119
    case LogicalNot => 120
    case Greater => 121
    case GreaterEqual => 122
    case Less => 123
    case LessEqual => 124
    case Equal => 125
    case NotEqual => 126
    case Push => 127
    case Pop => 128
    case Jmp => 129
    case Jz => 130
  }

  /** The value of a data type: DTYPE_VOID = 300 up to DTYPE_ERROR = 306. */
  function Rank(t: DataType): (r: int)
    ensures 300 <= r <= 306
  {
    match t
    case Void => 300
    case Bool => 301
    case Char => 302
    case Int => 303
    case Float => 304
    case FuncPtr => 305
    case ErrorType => 306
  }

  /** The value of a scope kind: SCOPE_BLOCK = 500 up to SCOPE_SWITCH = 504. */
  function ScopeCode(k: ScopeType): (c: int)
    ensures 500 <= c <= 504
  {
    match k
    case BlockScope => 500
    case FunctionScope => 501
    case LoopScope => 502
    case IfScope => 503
    case SwitchScope => 504
  }

  /** Operator values are consecutive from 100 in declaration order. */
  lemma OperatorCodesConsecutive()
    ensures |AllOperators| == 31
    ensures forall i :: 0 <= i < |AllOperators| ==> OperatorCode(AllOperators[i]) == 100 + i
  {
  }

  /** Every operator is at the position its value gives, so distinct operators have distinct values. */
  lemma OperatorCodesDistinct()
    ensures forall op: Operator :: 100 <= OperatorCode(op) < 100 + |AllOperators| && AllOperators[OperatorCode(op) - 100] == op
    ensures forall a: Operator, b: Operator :: OperatorCode(a) == OperatorCode(b) ==> a == b
  {
    forall op: Operator ensures 100 <= OperatorCode(op) < 100 + |AllOperators| && AllOperators[OperatorCode(op) - 100] == op {
      match op
      case Assign =>
      case Add =>
      case UPlus =>
      case Sub =>
      case UMinus =>
      case Mul =>
      case Div =>
      case Mod =>
      case PreInc =>
      case SufInc =>
      case PreDec =>
      case SufDec =>
      case And =>
      case Or =>
      case Xor =>
      case Not =>
      case Shl =>
      case Shr =>
      case LogicalAnd =>
      case LogicalOr =>
      case LogicalNot =>
      case Greater =>
      case GreaterEqual =>
      case Less =>
      case LessEqual =>
      case Equal =>
      case NotEqual =>
      case Push =>
      case Pop =>
      case Jmp =>
      case Jz =>
    }
  }

  /** Data-type values run from 300 to 306 in declaration order, so comparing ranks compares declaration positions. */
  lemma RanksFollowDeclarationOrder()
    ensures forall i :: 0 <= i < |AllDataTypes| ==> Rank(AllDataTypes[i]) == 300 + i
    ensures forall i, j :: 0 <= i < j < |AllDataTypes| ==> Rank(AllDataTypes[i]) < Rank(AllDataTypes[j])
    ensures forall t: DataType :: AllDataTypes[Rank(t) - 300] == t
  {
  }

  /** BOOL < CHAR < INT < FLOAT are consecutive, so "the wider type wins" is a comparison of values. */
  lemma NumericRanksConsecutive()
    ensures Rank(Char) == Rank(Bool) + 1 && Rank(Int) == Rank(Char) + 1 && Rank(Float) == Rank(Int) + 1
    ensures Rank(Void) < Rank(Bool) && Rank(Float) < Rank(FuncPtr) < Rank(ErrorType)
  {
  }

  /** Scope values are five distinct consecutive values from 500. */
  lemma ScopeCodesConsecutive()
    ensures forall i :: 0 <= i < |AllScopeTypes| ==> ScopeCode(AllScopeTypes[i]) == 500 + i
    ensures forall a: ScopeType, b: ScopeType :: ScopeCode(a) == ScopeCode(b) ==> a == b
  {
  }

  /** The three value ranges do not overlap. */
  lemma CodeRangesDisjoint(op: Operator, t: DataType, k: ScopeType)
    ensures OperatorCode(op) != Rank(t) && Rank(t) != ScopeCode(k) && OperatorCode(op) != ScopeCode(k)
  {
  }
}
