/**
 * `Dissassembler` (dissassembler.rs): a second reader of the tape ImCompiler emits. It walks
 * the words with its own `offset` and an indentation `level`, and prints what it recognises
 * with `eprint!`; that output is modelled as a sequence of printed strings. Floats are
 * printed by the abstract rendering `show`.
 */
module Disassembler {
  import opened Wrappers
  import opened Values
  import opened Ast
  import opened Words
  import opened Compiler

  /** What the disassembler reads: the compiler's tape and names, and how an f64 prints. */
  datatype Listing = Listing(tape: seq<Word>, globals: seq<string>, show: Num -> string)

  /** The fields it updates: `offset`, `level`, and everything printed so far. */
  datatype DState = DState(off: nat, level: nat, out: seq<string>)

  /** `{:>ident$}` applied to "": `n` spaces. */
  function Indent(n: nat): (r: string)
    ensures |r| == n && forall k :: 0 <= k < n ==> r[k] == ' '
  {
    seq(n, _ => ' ')
  }

  function Print(d: DState, text: string): DState {
    d.(out := d.out + [text])
  }

  /** `read`: the word at `offset`, a panic past the end of the tape. */
  function ReadWord(l: Listing, d: DState): (r: Result<(Word, DState)>)
    ensures r.Ok? <==> d.off < |l.tape|
    ensures r.Ok? ==> r.value == (l.tape[d.off], d.(off := d.off + 1))
    ensures r.Err? ==> r.error == OutOfRange
  {
    if d.off < |l.tape| then Ok((l.tape[d.off], d.(off := d.off + 1))) else Err(OutOfRange)
  }

  /** `peek`: the word after `offset`, without moving. */
  function PeekWord(l: Listing, d: DState): (r: Result<Word>)
    ensures r.Ok? <==> d.off + 1 < |l.tape|
    ensures r.Ok? ==> r.value == l.tape[d.off + 1]
  {
    if d.off + 1 < |l.tape| then Ok(l.tape[d.off + 1]) else Err(OutOfRange)
  }

  /** `self.globals[idx]` for a word read as an index; a function address is never in range. */
  function GlobalName(l: Listing, w: Word): (r: Result<string>)
    ensures r.Ok? <==> AsInt(w).Some? && AsInt(w).value < |l.globals|
    ensures r.Ok? ==> r.value == l.globals[AsInt(w).value]
  {
    match AsInt(w)
    case Some(i) => if i < |l.globals| then Ok(l.globals[i]) else Err(IndexOutOfBounds)
    case None => Err(IndexOutOfBounds)
  }

  /**
   * The text `impl_op_diss!` prints for an operator function. The `!=` arm compares against
   * `native_op_eq`, which the `==` arm has already taken, so `native_op_neq` has no text.
   */
  function Symbol(op: Operator): (r: Option<string>)
    ensures r.None? <==> op == Neq
  {
    match op
    case Add => Some("+")
    case Sub => Some("-")
    case Mul => Some("*")
    case Div => Some("/")
    case Rem => Some("%")
    case Eq => Some("==")
    case Neq => None
    case Gt => Some(">")
    case Gte => Some(">=")
    case Lt => Some("<")
    case Lte => Some("<=")
  }

  /** The words `handle_fn` recognises. */
  predicate IsFlowWord(w: Word) {
    w == Op(OpBlock) || w == Op(OpBlockChecked) || w == Op(OpWhileLoop)
  }

  /** The words `handle_literal` recognises. */
  predicate IsLiteralWord(w: Word) {
    w == Op(OpFloat) || w == Op(OpTr) || w == Op(OpFl)
  }

  /** The words `handle_operation` prints something for. */
  predicate IsOperationWord(w: Word) {
    w == Op(OpAssign) || w == Op(OpVar) || (w.Op? && w.code.OpNative? && Symbol(w.code.op).Some?)
  }

  /** Every word the disassembler prints anything for. */
  predicate Recognised(w: Word) {
    IsFlowWord(w) || IsLiteralWord(w) || IsOperationWord(w)
  }

  /** `dissassemble`: read one word and hand it to the first handler that takes it. */
  function Diss(l: Listing, d: DState): (r: Result<DState>)
    requires d.off <= |l.tape|
    ensures r.Ok? ==> d.off < r.value.off <= |l.tape| && r.value.level == d.level && d.out <= r.value.out
    decreases |l.tape| - d.off, 0
  {
    var (w, d1) :- ReadWord(l, d);
    Handle(l, w, d1)
  }

  function Handle(l: Listing, w: Word, d: DState): (r: Result<DState>)
    requires 0 < d.off <= |l.tape|
    ensures r.Ok? ==> d.off <= r.value.off <= |l.tape| && r.value.level == d.level && d.out <= r.value.out
    decreases |l.tape| - d.off, 3
  {
    if IsFlowWord(w) then FnListing(l, w, d)
    else if IsLiteralWord(w) then LiteralListing(l, w, d)
    else OperationListing(l, w, d)
  }

  /** `handle_fn`: blocks and while loops. */
  function FnListing(l: Listing, w: Word, d: DState): (r: Result<DState>)
    requires 0 < d.off <= |l.tape| && IsFlowWord(w)
    ensures r.Ok? ==> d.off < r.value.off <= |l.tape| && r.value.level == d.level && d.out <= r.value.out
    decreases |l.tape| - d.off, 2
  {
    if w == Op(OpBlock) || w == Op(OpBlockChecked) then
      var d1 := Print(d, "\n" + Indent(d.level) + "{\n").(level := d.level + 4);
      var (end, d2) :- ReadWord(l, d1);
      var d3 :- if w == Op(OpBlock) then BlockBody(l, AsInt(end), d2) else CheckedBody(l, AsInt(end), d2);
      Ok(Print(d3.(level := d.level), Indent(d.level) + "}"))
    else
      var d1 := Print(d, Indent(d.level) + "while ");
      var (_, d2) :- ReadWord(l, d1);
      var d3 :- Diss(l, d2);
      var d4 := Print(d3, " {\n").(level := d.level + 4);
      var (pk, d5) :- ReadWord(l, d4);
      var d6 :- Statement(l, pk, d5);
      Ok(Print(d6.(level := d.level), "\n" + Indent(d.level) + "}"))
  }

  /** Statements of a plain block, each followed by a newline, until `offset` is exactly `end`. */
  function BlockBody(l: Listing, end: Option<nat>, d: DState): (r: Result<DState>)
    requires d.off <= |l.tape|
    ensures r.Ok? ==> d.off <= r.value.off <= |l.tape| && r.value.level == d.level && d.out <= r.value.out
    ensures r.Ok? ==> end == Some(r.value.off)
    decreases |l.tape| - d.off, 1
  {
    if end == Some(d.off) then Ok(d)
    else
      var d1 :- Diss(l, d);
      BlockBody(l, end, Print(d1, "\n"))
  }

  /** Statements of a checked block: each one starts by consuming one word, the possible hint. */
  function CheckedBody(l: Listing, end: Option<nat>, d: DState): (r: Result<DState>)
    requires d.off <= |l.tape|
    ensures r.Ok? ==> d.off <= r.value.off <= |l.tape| && r.value.level == d.level && d.out <= r.value.out
    ensures r.Ok? ==> end == Some(r.value.off)
    decreases |l.tape| - d.off, 1
  {
    if end == Some(d.off) then Ok(d)
    else
      var (pk, d1) :- ReadWord(l, d);
      var d2 :- Statement(l, pk, d1);
      CheckedBody(l, end, Print(d2, "\n"))
  }

  /** The `match pk` both loops share: 1001 prints "return " first; 1003 and the rest do not. */
  function Statement(l: Listing, pk: Word, d: DState): (r: Result<DState>)
    requires d.off <= |l.tape|
    ensures r.Ok? ==> d.off < r.value.off <= |l.tape| && r.value.level == d.level && d.out <= r.value.out
    decreases |l.tape| - d.off, 1
  {
    if AsInt(pk) == Some(ReturnHint) then Diss(l, Print(d, Indent(d.level) + "return "))
    else Diss(l, d)
  }

  /** `handle_literal`: a float consumes its bits word; `true` and `false` consume nothing more. */
  function LiteralListing(l: Listing, w: Word, d: DState): (r: Result<DState>)
    requires IsLiteralWord(w)
    ensures r.Ok? ==> r.value.level == d.level && d.out <= r.value.out
    ensures w != Op(OpFloat) ==> r == Ok(Print(d, if w == Op(OpTr) then "true" else "false"))
    ensures w == Op(OpFloat) && r.Ok? ==> r.value.off == d.off + 1
    decreases |l.tape| - d.off, 2
  {
    if w == Op(OpFloat) then
      var (bits, d1) :- ReadWord(l, d);
      match AsNum(bits)
      case None => Err(IllTyped)
      case Some(x) => Ok(Print(d1, l.show(x) + "f64"))
    else if w == Op(OpTr) then Ok(Print(d, "true"))
    else Ok(Print(d, "false"))
  }

  /** `handle_operation`: assignments, reads, operators; any other word prints nothing. */
  function OperationListing(l: Listing, w: Word, d: DState): (r: Result<DState>)
    requires 0 < d.off <= |l.tape|
    ensures r.Ok? ==> d.off <= r.value.off <= |l.tape| && r.value.level == d.level && d.out <= r.value.out
    ensures !IsOperationWord(w) ==> r == Ok(d)
    decreases |l.tape| - d.off, 2
  {
    if w == Op(OpAssign) then
      var d1 := Print(d, Indent(d.level) + "global ");
      var (iw, d2) :- ReadWord(l, d1);
      var name :- GlobalName(l, iw);
      Diss(l, Print(Print(d2, name), " = "))
    else if w == Op(OpVar) then
      var (iw, d1) :- ReadWord(l, d);
      var name :- GlobalName(l, iw);
      Ok(Print(d1, name))
    else if w.Op? && w.code.OpNative? && Symbol(w.code.op).Some? then
      var d1 :- Diss(l, d);
      Diss(l, Print(d1, " " + Symbol(w.code.op).value + " "))
    else Ok(d)
  }

  /** `dissassemble_program`: one expression, then a newline. */
  function DissProgram(l: Listing, d: DState): (r: Result<DState>)
    requires d.off <= |l.tape|
    ensures r.Ok? <==> Diss(l, d).Ok?
    ensures r.Ok? ==> |r.value.out| > 0 && r.value.out[|r.value.out| - 1] == "\n"
  {
    var d1 :- Diss(l, d);
    Ok(Print(d1, "\n"))
  }

  /** The local var/assign the compiler emits, `conditional`, `!=` and every non-function word print nothing. */
  lemma UnrecognisedWords(w: Word)
    ensures !Recognised(Op(OpLocalVar)) && !Recognised(Op(OpLocalAssign))
    ensures !Recognised(Op(OpConditional)) && !Recognised(Op(OpNative(Neq)))
    ensures !w.Op? ==> !Recognised(w)
  {
  }

  /** A word no handler takes is consumed, one read, and prints nothing. */
  lemma SilentWord(l: Listing, d: DState)
    requires d.off < |l.tape| && !Recognised(l.tape[d.off])
    ensures Diss(l, d) == Ok(d.(off := d.off + 1))
  {
  }

  /** A float literal consumes exactly its bits word; `true` and `false` consume no operand. */
  lemma Literals(l: Listing, d: DState, x: Num)
    requires d.off + 1 < |l.tape|
    ensures l.tape[d.off] == Op(OpFloat) && l.tape[d.off + 1] == FloatBits(x) ==>
              Diss(l, d) == Ok(DState(d.off + 2, d.level, d.out + [l.show(x) + "f64"]))
    ensures l.tape[d.off] == Op(OpTr) ==> Diss(l, d) == Ok(DState(d.off + 1, d.level, d.out + ["true"]))
    ensures l.tape[d.off] == Op(OpFl) ==> Diss(l, d) == Ok(DState(d.off + 1, d.level, d.out + ["false"]))
  {
  }

  /** `var` and `assign` each consume one slot word and print the global's name. */
  lemma Globals(l: Listing, d: DState, i: nat)
    requires d.off + 1 < |l.tape| && l.tape[d.off + 1] == Slot(i) && i < |l.globals|
    ensures l.tape[d.off] == Op(OpVar) ==> Diss(l, d) == Ok(DState(d.off + 2, d.level, d.out + [l.globals[i]]))
    ensures l.tape[d.off] == Op(OpAssign) ==>
              Diss(l, d) == Diss(l, DState(d.off + 2, d.level, d.out + [Indent(d.level) + "global ", l.globals[i], " = "]))
  {
    var w := l.tape[d.off];
    var d1 := d.(off := d.off + 1);
    assert Diss(l, d) == Handle(l, w, d1);
    if w == Op(OpVar) {
      assert Handle(l, w, d1) == OperationListing(l, w, d1);
      assert ReadWord(l, d1) == Ok((Slot(i), DState(d.off + 2, d.level, d.out)));
    }
    if w == Op(OpAssign) {
      assert Handle(l, w, d1) == OperationListing(l, w, d1);
      var d2 := Print(d1, Indent(d.level) + "global ");
      assert ReadWord(l, d2) == Ok((Slot(i), d2.(off := d.off + 2)));
      assert d.out + [Indent(d.level) + "global "] + [l.globals[i]] + [" = "]
          == d.out + [Indent(d.level) + "global ", l.globals[i], " = "];
    }
  }

  /**
   * The expressions whose compiled words the disassembler reads back in step: literals,
   * operators other than `!=`, and plain blocks of these. Reads and assignments are not
   * among them, since the compiler emits the var/assign the disassembler does not know.
   */
  predicate Listable(e: Expr) {
    match e
    case Float(_) => true
    case Boolean(_) => true
    case BinaryOp(lhs, op, rhs) => op != Neq && Listable(lhs) && Listable(rhs)
    case Block(ss) => forall i :: 0 <= i < |ss| ==> !ss[i].Return? && !ss[i].While? && Listable(ss[i])
    case _ => false
  }

  /** What the disassembler should print for `e` at indentation `level`, written by structure. */
  function Render(show: Num -> string, e: Expr, level: nat): seq<string>
    requires Listable(e)
    decreases e, 1
  {
    match e
    case Float(x) => [show(x) + "f64"]
    case Boolean(b) => [if b then "true" else "false"]
    case BinaryOp(lhs, op, rhs) => Render(show, lhs, level) + [" " + Symbol(op).value + " "] + Render(show, rhs, level)
    case Block(_) => ["\n" + Indent(level) + "{\n"] + RenderStatements(show, e, 0, level + 4) + [Indent(level) + "}"]
  }

  function RenderStatements(show: Num -> string, block: Expr, i: nat, level: nat): seq<string>
    requires block.Block? && Listable(block) && i <= |block.statements|
    decreases block, 0, |block.statements| - i
  {
    if i == |block.statements| then []
    else Render(show, block.statements[i], level) + ["\n"] + RenderStatements(show, block, i + 1, level)
  }

  /** `dissassemble` reads the word under the offset and hands it on. */
  lemma DissAt(l: Listing, d: DState)
    requires d.off < |l.tape|
    ensures Diss(l, d) == Handle(l, l.tape[d.off], d.(off := d.off + 1))
  {
  }

  /** An operator word with a symbol: list one operand, print the symbol, list the other. */
  lemma NativeListing(l: Listing, op: Operator, d: DState)
    requires Symbol(op).Some? && 0 < d.off <= |l.tape|
    ensures Diss(l, d).Err? ==> Handle(l, Op(OpNative(op)), d) == Diss(l, d)
    ensures Diss(l, d).Ok? ==>
              Handle(l, Op(OpNative(op)), d) == Diss(l, Print(Diss(l, d).value, " " + Symbol(op).value + " "))
  {
    assert Handle(l, Op(OpNative(op)), d) == OperationListing(l, Op(OpNative(op)), d);
  }

  /** `NativeListing` one word earlier: the operator word itself is read first. */
  lemma OperatorWord(l: Listing, op: Operator, d: DState, left: DState)
    requires Symbol(op).Some? && d.off < |l.tape| && l.tape[d.off] == Op(OpNative(op))
    requires Diss(l, d.(off := d.off + 1)) == Ok(left)
    ensures Diss(l, d) == Diss(l, DState(left.off, left.level, left.out + [" " + Symbol(op).value + " "]))
  {
    DissAt(l, d);
    NativeListing(l, op, d.(off := d.off + 1));
    assert Print(left, " " + Symbol(op).value + " ") == DState(left.off, left.level, left.out + [" " + Symbol(op).value + " "]);
  }

  lemma TextAssoc(out: seq<string>, a: seq<string>, s: string, b: seq<string>)
    ensures out + a + [s] + b == out + (a + [s] + b)
  {
  }

  /** An operator word prints its left operand, the operator's text, then its right operand. */
  lemma OperatorStep(l: Listing, op: Operator, base: nat, level: nat, out: seq<string>,
                     m: nat, n: nat, rl: seq<string>, sym: string, rr: seq<string>)
    requires Symbol(op).Some? && base < |l.tape| && l.tape[base] == Op(OpNative(op)) && sym == " " + Symbol(op).value + " "
    requires Diss(l, DState(base + 1, level, out)) == Ok(DState(m, level, out + rl))
    requires Diss(l, DState(m, level, out + rl + [sym])) == Ok(DState(n, level, out + rl + [sym] + rr))
    ensures Diss(l, DState(base, level, out)) == Ok(DState(n, level, out + (rl + [sym] + rr)))
  {
    OperatorWord(l, op, DState(base, level, out), DState(m, level, out + rl));
    TextAssoc(out, rl, sym, rr);
  }

  /**
   * Reading back what the compiler wrote: disassembling the words `Layout(e)` placed at `base`
   * consumes exactly those words and prints `Render(e)`, leaving the level as it was.
   */
  lemma {:induction false} ListingOfLayout(l: Listing, e: Expr, base: nat, g: seq<string>, level: nat, out: seq<string>)
    requires Listable(e) && Occurs(l.tape, Layout(e, base, g).0, base)
    ensures Diss(l, DState(base, level, out))
         == Ok(DState(base + |Layout(e, base, g).0|, level, out + Render(l.show, e, level)))
    decreases e, 2, 0
  {
    var w := Layout(e, base, g).0;
    assert l.tape[base] == w[0];
    match e
    case Float(x) =>
      assert l.tape[base + 1] == w[1];
    case Boolean(b) =>
    case BinaryOp(lhs, op, rhs) =>
      BinaryListing(l, e, base, g, level, out);
    case Block(ss) =>
      BlockListing(l, e, base, g, level, out);
  }

  lemma {:induction false} BinaryListing(l: Listing, e: Expr, base: nat, g: seq<string>, level: nat, out: seq<string>)
    requires e.BinaryOp? && Listable(e) && Occurs(l.tape, Layout(e, base, g).0, base)
    ensures Diss(l, DState(base, level, out))
         == Ok(DState(base + |Layout(e, base, g).0|, level, out + Render(l.show, e, level)))
    decreases e, 1, 0
  {
    var (wl, g1) := Layout(e.lhs, base + 1, g);
    var wr := Layout(e.rhs, base + 1 + |wl|, g1).0;
    BinaryWords(l, e, base, g, wl, g1, wr);
    OperatorListing(l, e, base, g, level, out, wl, g1, wr);
  }

  /** An operator word at `base` followed by its operands' words lists as `Render(e)`. */
  lemma {:induction false} OperatorListing(l: Listing, e: Expr, base: nat, g: seq<string>, level: nat, out: seq<string>,
                                           wl: seq<Word>, g1: seq<string>, wr: seq<Word>)
    requires e.BinaryOp? && Listable(e) && base < |l.tape| && l.tape[base] == Op(OpNative(e.op))
    requires (wl, g1) == Layout(e.lhs, base + 1, g) && wr == Layout(e.rhs, base + 1 + |wl|, g1).0
    requires Occurs(l.tape, wl, base + 1) && Occurs(l.tape, wr, base + 1 + |wl|)
    ensures Diss(l, DState(base, level, out)) == Ok(DState(base + 1 + |wl| + |wr|, level, out + Render(l.show, e, level)))
    decreases e, 0, 1
  {
    var rl := Render(l.show, e.lhs, level);
    var sym := " " + Symbol(e.op).value + " ";
    var rr := Render(l.show, e.rhs, level);
    OperandsListing(l, e, base, g, level, out, wl, g1, wr, rl, sym, rr);
    OperatorStep(l, e.op, base, level, out, base + 1 + |wl|, base + 1 + |wl| + |wr|, rl, sym, rr);
    RenderBinary(l.show, e, level);
  }

  /** Where an operator's words sit: its own word at `base`, then the words of each operand. */
  lemma BinaryWords(l: Listing, e: Expr, base: nat, g: seq<string>, wl: seq<Word>, g1: seq<string>, wr: seq<Word>)
    requires e.BinaryOp? && Occurs(l.tape, Layout(e, base, g).0, base)
    requires (wl, g1) == Layout(e.lhs, base + 1, g) && wr == Layout(e.rhs, base + 1 + |wl|, g1).0
    ensures base < |l.tape| && l.tape[base] == Op(OpNative(e.op))
    ensures Occurs(l.tape, wl, base + 1) && Occurs(l.tape, wr, base + 1 + |wl|)
    ensures |Layout(e, base, g).0| == 1 + |wl| + |wr|
  {
    var head := [Op(OpNative(e.op))];
    BinaryShape(e, base, g);
    OccursSplit(l.tape, head + wl, wr, base);
    OccursSplit(l.tape, head, wl, base);
    assert l.tape[base] == head[0];
  }

  lemma RenderBinary(show: Num -> string, e: Expr, level: nat)
    requires e.BinaryOp? && Listable(e)
    ensures Render(show, e, level) == Render(show, e.lhs, level) + [" " + Symbol(e.op).value + " "] + Render(show, e.rhs, level)
  {
  }

  /** `ListingOfLayout` for a subexpression whose words `w` and text `r` are already known. */
  lemma {:induction false} SubListing(l: Listing, e: Expr, base: nat, g: seq<string>, level: nat, out: seq<string>,
                                         w: seq<Word>, r: seq<string>)
    requires Listable(e) && w == Layout(e, base, g).0 && Occurs(l.tape, w, base) && r == Render(l.show, e, level)
    ensures Diss(l, DState(base, level, out)) == Ok(DState(base + |w|, level, out + r))
    decreases e, 3, 0
  {
    ListingOfLayout(l, e, base, g, level, out);
  }

  /** Both operands of a listable operator list back from their own words, the right one after the symbol. */
  lemma {:induction false} OperandsListing(l: Listing, e: Expr, base: nat, g: seq<string>, level: nat, out: seq<string>,
                                           wl: seq<Word>, g1: seq<string>, wr: seq<Word>,
                                           rl: seq<string>, sym: string, rr: seq<string>)
    requires e.BinaryOp? && Listable(e)
    requires (wl, g1) == Layout(e.lhs, base + 1, g) && wr == Layout(e.rhs, base + 1 + |wl|, g1).0
    requires Occurs(l.tape, wl, base + 1) && Occurs(l.tape, wr, base + 1 + |wl|)
    requires rl == Render(l.show, e.lhs, level) && sym == " " + Symbol(e.op).value + " " && rr == Render(l.show, e.rhs, level)
    ensures Diss(l, DState(base + 1, level, out)) == Ok(DState(base + 1 + |wl|, level, out + rl))
    ensures Diss(l, DState(base + 1 + |wl|, level, out + rl + [sym]))
         == Ok(DState(base + 1 + |wl| + |wr|, level, out + rl + [sym] + rr))
    decreases e, 0, 0
  {
    SubListing(l, e.lhs, base + 1, g, level, out, wl, rl);
    SubListing(l, e.rhs, base + 1 + |wl|, g1, level, out + rl + [sym], wr, rr);
  }

  /** A plain block word: the header, its end word, the body up to that end, then the closing brace. */
  lemma BlockStep(l: Listing, d: DState, end: nat, body: DState)
    requires d.off + 1 < |l.tape| && l.tape[d.off] == Op(OpBlock) && l.tape[d.off + 1] == Offset(end)
    requires BlockBody(l, Some(end), DState(d.off + 2, d.level + 4, d.out + ["\n" + Indent(d.level) + "{\n"])) == Ok(body)
    ensures Diss(l, d) == Ok(Print(body.(level := d.level), Indent(d.level) + "}"))
  {
    var d0 := d.(off := d.off + 1);
    assert Diss(l, d) == FnListing(l, Op(OpBlock), d0);
    var d1 := Print(d0, "\n" + Indent(d.level) + "{\n").(level := d.level + 4);
    assert ReadWord(l, d1) == Ok((Offset(end), DState(d.off + 2, d.level + 4, d.out + ["\n" + Indent(d.level) + "{\n"])));
  }

  lemma RenderBlock(show: Num -> string, e: Expr, level: nat, out: seq<string>)
    requires e.Block? && Listable(e)
    ensures out + ["\n" + Indent(level) + "{\n"] + RenderStatements(show, e, 0, level + 4) + [Indent(level) + "}"]
         == out + Render(show, e, level)
  {
    var header := "\n" + Indent(level) + "{\n";
    var rs := RenderStatements(show, e, 0, level + 4);
    var closer := Indent(level) + "}";
    assert Render(show, e, level) == [header] + rs + [closer];
    assert out + [header] + rs + [closer] == out + ([header] + rs + [closer]);
  }

  lemma {:induction false} BlockListing(l: Listing, e: Expr, base: nat, g: seq<string>, level: nat, out: seq<string>)
    requires e.Block? && Listable(e) && Occurs(l.tape, Layout(e, base, g).0, base)
    ensures Diss(l, DState(base, level, out))
         == Ok(DState(base + |Layout(e, base, g).0|, level, out + Render(l.show, e, level)))
    decreases e, 1, 0
  {
    var ws := LayoutStatements(e, 0, base + 2, g).0;
    var end := base + 2 + |ws|;
    BlockLayout(e, base, g);
    var head := [Op(OpBlock), Offset(end)];
    OccursSplit(l.tape, head, ws, base);
    assert l.tape[base] == head[0] && l.tape[base + 1] == head[1];
    var header := "\n" + Indent(level) + "{\n";
    StatementsListing(l, e, 0, base + 2, g, level + 4, out + [header], end);
    var rs := RenderStatements(l.show, e, 0, level + 4);
    BlockStep(l, DState(base, level, out), end, DState(end, level + 4, out + [header] + rs));
    RenderBlock(l.show, e, level, out);
  }

  /** A block without `Return` or `While` is laid out as `block`, its end offset, its statements. */
  lemma BlockLayout(e: Expr, base: nat, g: seq<string>)
    requires e.Block? && Listable(e)
    ensures var ws := LayoutStatements(e, 0, base + 2, g).0;
            Layout(e, base, g).0 == [Op(OpBlock), Offset(base + 2 + |ws|)] + ws
  {
    assert !HasCheckedStatement(e.statements);
  }

  /** A plain block's loop prints each statement and a newline, stopping exactly at `end`. */
  lemma {:induction false} StatementsListing(l: Listing, block: Expr, i: nat, base: nat, g: seq<string>,
                                             level: nat, out: seq<string>, end: nat)
    requires block.Block? && Listable(block) && i <= |block.statements|
    requires Occurs(l.tape, LayoutStatements(block, i, base, g).0, base)
    requires end == base + |LayoutStatements(block, i, base, g).0|
    ensures BlockBody(l, Some(end), DState(base, level, out))
         == Ok(DState(end, level, out + RenderStatements(l.show, block, i, level)))
    decreases block, 0, |block.statements| - i
  {
    if i == |block.statements| {
      assert LayoutStatements(block, i, base, g).0 == [];
      assert out + [] == out;
    } else {
      var s := block.statements[i];
      var (w, g1) := Layout(s, base, g);
      var rest := LayoutStatements(block, i + 1, base + |w|, g1).0;
      var rs := Render(l.show, s, level);
      var more := RenderStatements(l.show, block, i + 1, level);
      StatementWords(l, block, i, base, g, w, g1, rest);
      SubListing(l, s, base, g, level, out, w, rs);
      StatementsListing(l, block, i + 1, base + |w|, g1, level, out + rs + ["\n"], end);
      BodyStep(l, end, base, base + |w|, level, out, rs, more);
      assert RenderStatements(l.show, block, i, level) == rs + ["\n"] + more;
    }
  }

  /** Where a block's statements sit: statement `i` first, then the statements after it. */
  lemma StatementWords(l: Listing, block: Expr, i: nat, base: nat, g: seq<string>,
                       w: seq<Word>, g1: seq<string>, rest: seq<Word>)
    requires block.Block? && Listable(block) && i < |block.statements|
    requires Occurs(l.tape, LayoutStatements(block, i, base, g).0, base)
    requires (w, g1) == Layout(block.statements[i], base, g) && rest == LayoutStatements(block, i + 1, base + |w|, g1).0
    ensures Listable(block.statements[i]) && 0 < |w|
    ensures Occurs(l.tape, w, base) && Occurs(l.tape, rest, base + |w|)
    ensures |LayoutStatements(block, i, base, g).0| == |w| + |rest|
  {
    assert LayoutStatements(block, i, base, g).0 == w + rest;
    OccursSplit(l.tape, w, rest, base);
  }

  /** One round of `block`'s loop: a statement short of `end` is listed, then a newline, then the rest. */
  lemma BodyStep(l: Listing, end: nat, base: nat, m: nat, level: nat, out: seq<string>, rs: seq<string>, more: seq<string>)
    requires base <= |l.tape| && end != base
    requires Diss(l, DState(base, level, out)) == Ok(DState(m, level, out + rs))
    requires m <= |l.tape| && BlockBody(l, Some(end), DState(m, level, out + rs + ["\n"])) == Ok(DState(end, level, out + rs + ["\n"] + more))
    ensures BlockBody(l, Some(end), DState(base, level, out)) == Ok(DState(end, level, out + (rs + ["\n"] + more)))
  {
    assert Print(DState(m, level, out + rs), "\n") == DState(m, level, out + rs + ["\n"]);
    assert out + rs + ["\n"] + more == out + (rs + ["\n"] + more);
  }

  /** A method that printed, or failed, exactly as `spec` says. */
  ghost predicate Done(r: Result<()>, spec: Result<DState>, now: DState) {
    match spec
    case Ok(d) => r == Ok(()) && now == d
    case Err(e) => r == Err(e)
  }

  /** A handler that took its word and did what `spec` says: it answers `true`, or fails. */
  ghost predicate Took(r: Result<bool>, spec: Result<DState>, now: DState) {
    match spec
    case Ok(d) => r == Ok(true) && now == d
    case Err(e) => r == Err(e)
  }

  class Dissassembler {
    var offset: nat
    const tape: seq<Word>
    const globals: seq<string>
    var level: nat
    /** Everything `eprint!` has written so far. */
    var out: seq<string>
    const show: Num -> string

    /** `From<ImCompiler>`: the compiler's tape and names, offset and level 0. */
    constructor From(value: ImCompiler, show: Num -> string)
      ensures tape == value.futureTape && globals == value.globals && this.show == show
      ensures Here() == DState(0, 0, [])
    {
      offset := 0;
      level := 0;
      tape := value.futureTape;
      globals := value.globals;
      out := [];
      this.show := show;
    }

    function Source(): Listing {
      Listing(tape, globals, show)
    }

    function Here(): DState
      reads this
    {
      DState(offset, level, out)
    }

    method Eprint(text: string)
      modifies this
      ensures Here() == Print(old(Here()), text)
    {
      out := out + [text];
    }

    method Read() returns (r: Result<Word>)
      modifies this
      ensures Yields(r, ReadWord(Source(), old(Here())), Here())
    {
      if offset >= |tape| {
        return Err(OutOfRange);
      }
      r := Ok(tape[offset]);
      offset := offset + 1;
    }

    method Peek() returns (r: Result<Word>)
      ensures r == PeekWord(Source(), Here())
    {
      if offset + 1 >= |tape| {
        return Err(OutOfRange);
      }
      r := Ok(tape[offset + 1]);
    }

    method ScopeIn()
      modifies this
      ensures Here() == old(Here()).(level := old(level) + 4)
    {
      level := level + 4;
    }

    method ScopeOut()
      requires level >= 4
      modifies this
      ensures Here() == old(Here()).(level := old(level) - 4)
    {
      level := level - 4;
    }

    method DissassembleProgram() returns (r: Result<()>)
      requires offset <= |tape|
      modifies this
      ensures Done(r, DissProgram(Source(), old(Here())), Here())
    {
      r := Dissassemble();
      if r.Err? {
        return;
      }
      Eprint("\n");
    }

    method Dissassemble() returns (r: Result<()>)
      requires offset <= |tape|
      modifies this
      ensures Done(r, Diss(Source(), old(Here())), Here())
      decreases |tape| - offset, 0
    {
      var element := Read();
      if element.Err? {
        return Err(element.error);
      }
      assert Diss(Source(), old(Here())) == Handle(Source(), element.value, Here());
      var handled := HandleFn(element.value);
      if handled.Err? {
        return Err(handled.error);
      }
      if !handled.value {
        handled := HandleLiteral(element.value);
        if handled.Err? {
          return Err(handled.error);
        }
        if !handled.value {
          handled := HandleOperation(element.value);
          if handled.Err? {
            return Err(handled.error);
          }
        }
      }
      r := Ok(());
    }

    method HandleLiteral(element: Word) returns (r: Result<bool>)
      modifies this
      ensures !IsLiteralWord(element) ==> r == Ok(false) && Here() == old(Here())
      ensures IsLiteralWord(element) ==> Took(r, LiteralListing(Source(), element, old(Here())), Here())
    {
      if element == Op(OpFloat) {
        var bits := Read();
        if bits.Err? {
          return Err(bits.error);
        }
        match AsNum(bits.value)
        case None => return Err(IllTyped);
        case Some(x) => Eprint(show(x) + "f64");
      } else if element == Op(OpTr) {
        Eprint("true");
      } else if element == Op(OpFl) {
        Eprint("false");
      } else {
        return Ok(false);
      }
      r := Ok(true);
    }

    method HandleOperation(element: Word) returns (r: Result<bool>)
      requires 0 < offset <= |tape|
      modifies this
      ensures Took(r, OperationListing(Source(), element, old(Here())), Here())
      decreases |tape| - offset, 2
    {
      if element == Op(OpAssign) {
        Eprint(Indent(level) + "global ");
        var idx := Read();
        if idx.Err? {
          return Err(idx.error);
        }
        var name := GlobalName(Source(), idx.value);
        if name.Err? {
          return Err(name.error);
        }
        Eprint(name.value);
        Eprint(" = ");
        var v := Dissassemble();
        if v.Err? {
          return Err(v.error);
        }
      } else if element == Op(OpVar) {
        var idx := Read();
        if idx.Err? {
          return Err(idx.error);
        }
        var name := GlobalName(Source(), idx.value);
        if name.Err? {
          return Err(name.error);
        }
        Eprint(name.value);
      } else if element.Op? && element.code.OpNative? && Symbol(element.code.op).Some? {
        var lhs := Dissassemble();
        if lhs.Err? {
          return Err(lhs.error);
        }
        Eprint(" " + Symbol(element.code.op).value + " ");
        var rhs := Dissassemble();
        if rhs.Err? {
          return Err(rhs.error);
        }
      }
      r := Ok(true);
    }

    /** `handle_fn`: a block or a while loop; any other word is not its business. */
    method HandleFn(element: Word) returns (r: Result<bool>)
      requires 0 < offset <= |tape|
      modifies this
      ensures !IsFlowWord(element) ==> r == Ok(false) && Here() == old(Here())
      ensures IsFlowWord(element) ==> Took(r, FnListing(Source(), element, old(Here())), Here())
      decreases |tape| - offset, 2
    {
      if element == Op(OpBlock) || element == Op(OpBlockChecked) {
        r := HandleBlock(element);
      } else if element == Op(OpWhileLoop) {
        r := HandleWhile();
      } else {
        return Ok(false);
      }
    }

    /** The block arm of `handle_fn`: the header, the statements up to the end offset, the brace. */
    method HandleBlock(element: Word) returns (r: Result<bool>)
      requires 0 < offset <= |tape| && (element == Op(OpBlock) || element == Op(OpBlockChecked))
      modifies this
      ensures Took(r, FnListing(Source(), element, old(Here())), Here())
      decreases |tape| - offset, 1
    {
      ghost var d0 := Here();
      Eprint("\n" + Indent(level) + "{\n");
      ScopeIn();
      var next := Read();
      if next.Err? {
        return Err(next.error);
      }
      var end := AsInt(next.value);
      ghost var spec := if element == Op(OpBlock) then BlockBody(Source(), end, Here())
                        else CheckedBody(Source(), end, Here());
      while Some(offset) != end
        invariant d0.off < offset <= |tape| && level == d0.level + 4
        invariant spec == if element == Op(OpBlock) then BlockBody(Source(), end, Here())
                          else CheckedBody(Source(), end, Here())
        decreases |tape| - offset
      {
        if element == Op(OpBlock) {
          var v := Dissassemble();
          if v.Err? {
            return Err(v.error);
          }
        } else {
          var pk := Read();
          if pk.Err? {
            return Err(pk.error);
          }
          if AsInt(pk.value) == Some(ReturnHint) {
            Eprint(Indent(level) + "return ");
          }
          var v := Dissassemble();
          if v.Err? {
            return Err(v.error);
          }
        }
        Eprint("\n");
      }
      ScopeOut();
      Eprint(Indent(level) + "}");
      r := Ok(true);
    }

    /** The while arm of `handle_fn`: skip the end offset, list the condition, then the one body statement. */
    method HandleWhile() returns (r: Result<bool>)
      requires 0 < offset <= |tape|
      modifies this
      ensures Took(r, FnListing(Source(), Op(OpWhileLoop), old(Here())), Here())
      decreases |tape| - offset, 1
    {
      Eprint(Indent(level) + "while ");
      var skipped := Read();
      if skipped.Err? {
        return Err(skipped.error);
      }
      var cond := Dissassemble();
      if cond.Err? {
        return Err(cond.error);
      }
      Eprint(" {\n");
      ScopeIn();
      var pk := Read();
      if pk.Err? {
        return Err(pk.error);
      }
      ghost var d5 := Here();
      if AsInt(pk.value) == Some(ReturnHint) {
        Eprint(Indent(level) + "return ");
      }
      assert Statement(Source(), pk.value, d5) == Diss(Source(), Here());
      var body := Dissassemble();
      if body.Err? {
        return Err(body.error);
      }
      ScopeOut();
      Eprint("\n" + Indent(level) + "}");
      r := Ok(true);
    }
  }
}
