/**
 * The words of a compiled tape. In the source every word is a u64: a dispatch function's
 * address, a float's bits, a slot, an offset or a hint code. Here the function addresses
 * become the tag `Op`; every other word still carries its number.
 */
module Words {
  import opened Wrappers
  import opened Values
  import opened Ast

  /** One tag per dispatch function whose address the source writes into a tape. */
  datatype Opcode =
    | OpTr | OpFl | OpFloat          // literals::{tr, fl, float}
    | OpVar | OpAssign               // operations::{var, assign}
    | OpLocalVar | OpLocalAssign     // the var/assign functions local to ImCompiler::compile_expr
    | OpBlock | OpBlockChecked | OpWhileLoop | OpConditional   // flow::*
    | OpNative(op: Operator)         // operations::native_op_*

  datatype Word =
    | Op(code: Opcode)
    | Hint(n: nat)
    | Slot(n: nat)
    | Offset(n: nat)
    | FloatBits(x: Num)

  /** The `Hint` enum of imsta.rs. */
  const ReturnHint: nat := 1001
  const BreakHint: nat := 1002
  const WhileHint: nat := 1003

  /** The word `compile_expr` pushes before it knows what goes there (`self.push(0)`). */
  const Placeholder: Word := Offset(0)

  /** The word read as an integer (`get_next() as usize`); a function address has no known value. */
  function AsInt(w: Word): Option<nat> {
    match w
    case Op(_) => None
    case Hint(n) => Some(n)
    case Slot(n) => Some(n)
    case Offset(n) => Some(n)
    case FloatBits(x) => Some(x.bits)
  }

  /** The word reinterpreted as an f64 (`transmute`). */
  function AsNum(w: Word): Option<Num> {
    match w
    case Op(_) => None
    case FloatBits(x) => Some(x)
    case Hint(n) => Some(Num(n))
    case Slot(n) => Some(Num(n))
    case Offset(n) => Some(Num(n))
  }

  /** The word reinterpreted as a dispatch function. */
  function AsOpcode(w: Word): Option<Opcode> {
    if w.Op? then Some(w.code) else None
  }

  /** The test `loop_body!` makes before a statement: a word in 1001..=2000. */
  predicate IsHintWord(w: Word) {
    AsInt(w).Some? && ReturnHint <= AsInt(w).value <= 2000
  }
}
