/**
 * The quadruple instructions the generator emits, one value per instruction.
 * The helpers Utils::oprToQuad, Utils::binOprToQuad and Utils::dtypeConvQuad
 * are not part of this model: their results are kept symbolic, as the
 * constructors Typed, BinOpr and Conv, so that only the order and the operands
 * of the emitted instructions are fixed, not their spelling.
 */
module Quads {
  import opened Wrappers
  import opened Consts

  /** What follows the opcode on a line. */
  datatype Operand =
    | NoOperand
    | LabelRef(target: nat)    // "L<n>", a jump target
    | SwitchCond(slot: nat)   // "SWITCH_COND@<n>", the slot a switch stores its value in
    | Name(name: string)      // a variable or a procedure
    | Value(text: string)     // a literal

  datatype Quad =
    | LabelDef(id: nat)                                 // "L<n>:"
    | Typed(opr: Operator, ty: DataType, arg: Operand)  // Utils::oprToQuad(opr, ty) followed by the operand
    | BinOpr(opr: Operator)                             // Utils::binOprToQuad(opr)
    | Conv(from: DataType, to: DataType)                // Utils::dtypeConvQuad(from, to)
    | Plain(mnemonic: string, arg: Operand)             // a line written out literally, e.g. "JZ L5" or "PROC f"

  /** The label an instruction jumps to, if any. */
  function Target(q: Quad): Option<nat>
  {
    if (q.Typed? || q.Plain?) && q.arg.LabelRef? then Some(q.arg.target) else None
  }

  /** An instruction that neither defines nor references a label. */
  predicate Labelless(q: Quad)
  {
    !q.LabelDef? && Target(q).None?
  }

  /** Code without label definitions and without jumps. */
  predicate StraightLine(code: seq<Quad>)
  {
    forall i :: 0 <= i < |code| ==> Labelless(code[i])
  }

  /** How many times the code defines label l. */
  function Count(code: seq<Quad>, l: nat): nat
  {
    if code == [] then 0 else (if code[0] == LabelDef(l) then 1 else 0) + Count(code[1..], l)
  }

  /** Whether the code holds a jump to label l. */
  predicate Jumps(code: seq<Quad>, l: nat)
  {
    code != [] && (Target(code[0]) == Some(l) || Jumps(code[1..], l))
  }

  /** Definitions and jumps of a concatenation are those of its parts. */
  lemma {:induction false} CountAppend(a: seq<Quad>, b: seq<Quad>, l: nat)
    ensures Count(a + b, l) == Count(a, l) + Count(b, l)
    ensures Jumps(a + b, l) <==> Jumps(a, l) || Jumps(b, l)
  {
    if a == [] {
      assert a + b == b;
    } else {
      assert (a + b)[0] == a[0] && (a + b)[1..] == a[1..] + b;
      CountAppend(a[1..], b, l);
    }
  }

  /** A single line defines l when it is the label definition of l, and jumps to l when l is its target. */
  lemma One(q: Quad, l: nat)
    ensures Count([q], l) == if q == LabelDef(l) then 1 else 0
    ensures Jumps([q], l) <==> Target(q) == Some(l)
  {
    assert [q][1..] == [];
  }

  /** Straight-line code defines and jumps to no label. */
  lemma {:induction false} StraightLineNoLabels(code: seq<Quad>, l: nat)
    requires StraightLine(code)
    ensures Count(code, l) == 0 && !Jumps(code, l)
  {
    if code != [] {
      assert Labelless(code[0]);
      StraightLineNoLabels(code[1..], l);
    }
  }

  lemma StraightLineAppend(a: seq<Quad>, b: seq<Quad>)
    requires StraightLine(a) && StraightLine(b)
    ensures StraightLine(a + b)
  {
    forall i | 0 <= i < |a + b| ensures Labelless((a + b)[i]) {
      if i < |a| { assert (a + b)[i] == a[i]; } else { assert (a + b)[i] == b[i - |a|]; }
    }
  }
}
