/**
 * `ImCompiler::compile_expr` (imsta.rs): an expression tree becomes words appended to one
 * growing tape, with global names interned into dense slots and the end offsets of blocks and
 * loops backpatched into placeholders.
 */
module Compiler {
  import opened Values
  import opened Ast
  import opened Words
  import opened Interning

  /** What an ImCompiler holds: `future_tape` and `globals`. */
  datatype CState = CState(tape: seq<Word>, globals: seq<string>)

  function Append(st: CState, words: seq<Word>): CState {
    st.(tape := st.tape + words)
  }

  /** The opcode a block's first placeholder is patched with. */
  function BlockKind(hasReturn: bool, hasWhile: bool): (k: Opcode)
    ensures k == OpBlockChecked <==> hasReturn || hasWhile
    ensures k == OpBlock <==> !hasReturn && !hasWhile
  {
    if hasReturn || hasWhile then OpBlockChecked else OpBlock
  }

  /** The state after `compile_expr(e)`: it only appends, and only patches its own placeholders. */
  function Compile(e: Expr, st: CState): (r: CState)
    ensures st.tape <= r.tape && st.globals <= r.globals
    decreases e, 1, 0
  {
    match e
    case Boolean(b) => Append(st, [Op(if b then OpTr else OpFl)])
    case Float(x) => Append(st, [Op(OpFloat), FloatBits(x)])
    case Var(Global(name)) =>
      var (idx, g) := Intern(st.globals, name);
      CState(st.tape + [Op(OpLocalVar), Slot(idx)], g)
    case Assign(Global(name), value) =>
      var (idx, g) := Intern(st.globals, name);
      Compile(value, CState(st.tape + [Op(OpLocalAssign), Slot(idx)], g))
    case Return(value) => Compile(value, Append(st, [Hint(ReturnHint)]))
    case Block(_) =>
      var instrIdx := |st.tape|;
      var nextInstr := instrIdx + 1;
      var (body, hasReturn, hasWhile) := CompileStatements(e, 0, Append(st, [Placeholder, Placeholder]), false);
      var patched := body.tape[instrIdx := Op(BlockKind(hasReturn, hasWhile))][nextInstr := Offset(|body.tape|)];
      assert patched[..|st.tape|] == body.tape[..|st.tape|];
      CState(patched, body.globals)
    case While(cond, loopBody) =>
      var nextInstr := |st.tape| + 2;
      var done := Compile(loopBody, Compile(cond, Append(st, [Hint(WhileHint), Op(OpWhileLoop), Placeholder])));
      var patched := done.tape[nextInstr := Offset(|done.tape|)];
      assert patched[..|st.tape|] == done.tape[..|st.tape|];
      CState(patched, done.globals)
    case BinaryOp(lhs, op, rhs) => Compile(rhs, Compile(lhs, Append(st, [Op(OpNative(op))])))
    case Add(_, _) => st
  }

  /**
   * The statement loop of a block from statement `i` on: each statement is compiled in turn
   * until the first own-level Return, which sets the return flag and stops the loop without
   * being compiled. Returns the state and the flags `(has_return, has_while)`.
   */
  function CompileStatements(block: Expr, i: nat, st: CState, hasWhile: bool): (r: (CState, bool, bool))
    requires block.Block? && i <= |block.statements|
    ensures st.tape <= r.0.tape && st.globals <= r.0.globals
    decreases block, 0, |block.statements| - i
  {
    if i == |block.statements| then (st, false, hasWhile)
    else if block.statements[i].Return? then (st, true, hasWhile)
    else CompileStatements(block, i + 1, Compile(block.statements[i], st), hasWhile || block.statements[i].While?)
  }

  /** A block is checked exactly when its own statements include a Return or a While. */
  predicate HasCheckedStatement(statements: seq<Expr>) {
    exists i :: 0 <= i < |statements| && (statements[i].Return? || statements[i].While?)
  }

  /**
   * The words `e` occupies when its code starts at tape offset `base`, written out directly:
   * no placeholders, every end offset already known. With the names table it leaves.
   */
  function Layout(e: Expr, base: nat, g: seq<string>): (r: (seq<Word>, seq<string>))
    decreases e, 1, 0
  {
    match e
    case Boolean(b) => ([Op(if b then OpTr else OpFl)], g)
    case Float(x) => ([Op(OpFloat), FloatBits(x)], g)
    case Var(Global(name)) =>
      var (idx, g1) := Intern(g, name);
      ([Op(OpLocalVar), Slot(idx)], g1)
    case Assign(Global(name), value) =>
      var (idx, g1) := Intern(g, name);
      var (w, g2) := Layout(value, base + 2, g1);
      ([Op(OpLocalAssign), Slot(idx)] + w, g2)
    case Return(value) =>
      var (w, g1) := Layout(value, base + 1, g);
      ([Hint(ReturnHint)] + w, g1)
    case Block(statements) =>
      var (w, g1) := LayoutStatements(e, 0, base + 2, g);
      var kind := if HasCheckedStatement(statements) then OpBlockChecked else OpBlock;
      ([Op(kind), Offset(base + 2 + |w|)] + w, g1)
    case While(cond, body) =>
      var (wc, g1) := Layout(cond, base + 3, g);
      var (wb, g2) := Layout(body, base + 3 + |wc|, g1);
      ([Hint(WhileHint), Op(OpWhileLoop), Offset(base + 3 + |wc| + |wb|)] + wc + wb, g2)
    case BinaryOp(lhs, op, rhs) =>
      var (wl, g1) := Layout(lhs, base + 1, g);
      var (wr, g2) := Layout(rhs, base + 1 + |wl|, g1);
      ([Op(OpNative(op))] + wl + wr, g2)
    case Add(_, _) => ([], g)
  }

  /** The statements of a block from `i` up to (not including) the first Return, one after another. */
  function LayoutStatements(block: Expr, i: nat, base: nat, g: seq<string>): (r: (seq<Word>, seq<string>))
    requires block.Block? && i <= |block.statements|
    decreases block, 0, |block.statements| - i
  {
    if i == |block.statements| || block.statements[i].Return? then ([], g)
    else
      var (w, g1) := Layout(block.statements[i], base, g);
      var (rest, g2) := LayoutStatements(block, i + 1, base + |w|, g1);
      (w + rest, g2)
  }

  lemma Assoc(a: seq<Word>, b: seq<Word>, c: seq<Word>)
    ensures a + b + c == a + (b + c)
  {
  }

  lemma PatchTwo(a: seq<Word>, p: Word, q: Word, w: seq<Word>, x: Word, y: Word)
    ensures (a + [p, q] + w)[|a| := x][|a| + 1 := y] == a + [x, y] + w
  {
  }

  lemma PatchThird(a: seq<Word>, h: Word, k: Word, p: Word, w: seq<Word>, y: Word)
    ensures (a + [h, k, p] + w)[|a| + 2 := y] == a + [h, k, y] + w
  {
  }

  /** `words` sit in `tape` from index `base` on. */
  ghost predicate Occurs(tape: seq<Word>, words: seq<Word>, base: nat) {
    && base + |words| <= |tape|
    && forall k :: 0 <= k < |words| ==> tape[base + k] == words[k]
  }

  lemma OccursSplit(tape: seq<Word>, a: seq<Word>, b: seq<Word>, base: nat)
    requires Occurs(tape, a + b, base)
    ensures Occurs(tape, a, base) && Occurs(tape, b, base + |a|)
  {
    forall k | 0 <= k < |a| ensures tape[base + k] == a[k] {
      assert (a + b)[k] == a[k];
    }
    forall k | 0 <= k < |b| ensures tape[base + |a| + k] == b[k] {
      assert (a + b)[|a| + k] == b[k];
    }
  }

  /** `e` compiled at the end of `st` appends `Layout(e)` at offset `|st.tape|`. */
  ghost predicate LaidOut(e: Expr, st: CState) {
    Compile(e, st) == CState(st.tape + Layout(e, |st.tape|, st.globals).0, Layout(e, |st.tape|, st.globals).1)
  }

  /** An assignment is laid out as the local `assign` word, the name's slot, then the value. */
  lemma AssignShape(e: Expr, base: nat, g: seq<string>)
    requires e.Assign?
    ensures var (idx, g1) := Intern(g, e.target.name);
            var (wv, g2) := Layout(e.value, base + 2, g1);
            Layout(e, base, g) == ([Op(OpLocalAssign), Slot(idx)] + wv, g2) && g1 <= g2
  {
    var (idx, g1) := Intern(g, e.target.name);
    LayoutSlots(e.value, base + 2, g1);
  }

  /** An operator is laid out as its function word, then its left operand, then its right. */
  lemma BinaryShape(e: Expr, base: nat, g: seq<string>)
    requires e.BinaryOp?
    ensures var (wl, g1) := Layout(e.lhs, base + 1, g);
            var (wr, g2) := Layout(e.rhs, base + 1 + |wl|, g1);
            Layout(e, base, g) == ([Op(OpNative(e.op))] + wl + wr, g2) && g1 <= g2
  {
    var (wl, g1) := Layout(e.lhs, base + 1, g);
    LayoutSlots(e.rhs, base + 1 + |wl|, g1);
  }

  /**
   * Backpatching yields the direct layout: compiling `e` appends exactly `Layout(e)` at the
   * current end of the tape, so every placeholder has been overwritten with its opcode or with
   * the absolute offset just past the construct.
   */
  lemma {:induction false} CompileIsLayout(e: Expr, st: CState)
    ensures LaidOut(e, st)
    decreases e, 2, 0
  {
    match e
    case Boolean(_) =>
    case Float(_) =>
    case Var(Global(name)) =>
    case Assign(Global(name), value) =>
      var (idx, g1) := Intern(st.globals, name);
      var st1 := CState(st.tape + [Op(OpLocalAssign), Slot(idx)], g1);
      assert Compile(e, st) == Compile(value, st1);
      assert Layout(e, |st.tape|, st.globals)
        == ([Op(OpLocalAssign), Slot(idx)] + Layout(value, |st1.tape|, g1).0, Layout(value, |st1.tape|, g1).1);
      CompileIsLayout(value, st1);
      Assoc(st.tape, [Op(OpLocalAssign), Slot(idx)], Layout(value, |st1.tape|, g1).0);
    case Return(value) =>
      var st1 := Append(st, [Hint(ReturnHint)]);
      assert Compile(e, st) == Compile(value, st1);
      assert Layout(e, |st.tape|, st.globals)
        == ([Hint(ReturnHint)] + Layout(value, |st1.tape|, st.globals).0, Layout(value, |st1.tape|, st.globals).1);
      CompileIsLayout(value, st1);
      Assoc(st.tape, [Hint(ReturnHint)], Layout(value, |st1.tape|, st.globals).0);
    case Block(statements) => BlockIsLayout(e, st);
    case While(cond, body) => WhileIsLayout(e, st);
    case BinaryOp(lhs, op, rhs) => BinaryIsLayout(e, st);
    case Add(_, _) =>
  }

  lemma {:induction false} BinaryIsLayout(e: Expr, st: CState)
    requires e.BinaryOp?
    ensures LaidOut(e, st)
    decreases e, 1, 0
  {
    var st1 := Append(st, [Op(OpNative(e.op))]);
    var (wl, g1) := Layout(e.lhs, |st1.tape|, st.globals);
    var (wr, g2) := Layout(e.rhs, |st1.tape| + |wl|, g1);
    assert Compile(e, st) == Compile(e.rhs, Compile(e.lhs, st1));
    assert Layout(e, |st.tape|, st.globals) == ([Op(OpNative(e.op))] + wl + wr, g2);
    CompileIsLayout(e.lhs, st1);
    var st2 := Compile(e.lhs, st1);
    assert st2 == CState(st1.tape + wl, g1);
    CompileIsLayout(e.rhs, st2);
    assert Compile(e.rhs, st2) == CState(st1.tape + wl + wr, g2);
    Assoc(st.tape, [Op(OpNative(e.op))], wl);
    Assoc(st.tape, [Op(OpNative(e.op))] + wl, wr);
  }

  lemma {:induction false} BlockIsLayout(e: Expr, st: CState)
    requires e.Block?
    ensures LaidOut(e, st)
    decreases e, 1, 0
  {
    var st2 := Append(st, [Placeholder, Placeholder]);
    var (w, g1) := LayoutStatements(e, 0, |st.tape| + 2, st.globals);
    var (body, hasReturn, hasWhile) := CompileStatements(e, 0, st2, false);
    var kind := if HasCheckedStatement(e.statements) then OpBlockChecked else OpBlock;
    assert Layout(e, |st.tape|, st.globals) == ([Op(kind), Offset(|st.tape| + 2 + |w|)] + w, g1);
    assert Compile(e, st) == CState(body.tape[|st.tape| := Op(BlockKind(hasReturn, hasWhile))][|st.tape| + 1 := Offset(|body.tape|)], body.globals);
    CompileStatementsIsLayout(e, 0, st2, false);
    assert e.statements[0..] == e.statements;
    assert body == CState(st.tape + [Placeholder, Placeholder] + w, g1);
    PatchTwo(st.tape, Placeholder, Placeholder, w, Op(BlockKind(hasReturn, hasWhile)), Offset(|body.tape|));
    Assoc(st.tape, [Op(kind), Offset(|st.tape| + 2 + |w|)], w);
  }

  lemma {:induction false} WhileIsLayout(e: Expr, st: CState)
    requires e.While?
    ensures LaidOut(e, st)
    decreases e, 1, 0
  {
    var st1 := Append(st, [Hint(WhileHint), Op(OpWhileLoop), Placeholder]);
    var (wc, g1) := Layout(e.cond, |st1.tape|, st.globals);
    var (wb, g2) := Layout(e.body, |st1.tape| + |wc|, g1);
    var end := Offset(|st.tape| + 3 + |wc| + |wb|);
    assert Layout(e, |st.tape|, st.globals) == ([Hint(WhileHint), Op(OpWhileLoop), end] + wc + wb, g2);
    var done := Compile(e.body, Compile(e.cond, st1));
    assert Compile(e, st) == CState(done.tape[|st.tape| + 2 := Offset(|done.tape|)], done.globals);
    CompileIsLayout(e.cond, st1);
    var st2 := Compile(e.cond, st1);
    assert st2 == CState(st1.tape + wc, g1);
    CompileIsLayout(e.body, st2);
    assert done == CState(st1.tape + wc + wb, g2);
    Assoc(st1.tape, wc, wb);
    PatchThird(st.tape, Hint(WhileHint), Op(OpWhileLoop), Placeholder, wc + wb, end);
    Assoc(st.tape, [Hint(WhileHint), Op(OpWhileLoop), end], wc);
    Assoc(st.tape, [Hint(WhileHint), Op(OpWhileLoop), end] + wc, wb);
  }

  lemma {:induction false} CompileStatementsIsLayout(block: Expr, i: nat, st: CState, hasWhile: bool)
    requires block.Block? && i <= |block.statements|
    ensures var r := CompileStatements(block, i, st, hasWhile);
            var l := LayoutStatements(block, i, |st.tape|, st.globals);
            && r.0 == CState(st.tape + l.0, l.1)
            && (r.1 || r.2) == (hasWhile || HasCheckedStatement(block.statements[i..]))
    decreases block, 0, |block.statements| - i
  {
    var ss := block.statements;
    if i == |ss| {
    } else if ss[i].Return? {
      assert ss[i..][0] == ss[i];
    } else {
      var (w, g1) := Layout(ss[i], |st.tape|, st.globals);
      var st1 := Compile(ss[i], st);
      var hw := hasWhile || ss[i].While?;
      assert CompileStatements(block, i, st, hasWhile) == CompileStatements(block, i + 1, st1, hw);
      var (rest, g2) := LayoutStatements(block, i + 1, |st.tape| + |w|, g1);
      assert LayoutStatements(block, i, |st.tape|, st.globals) == (w + rest, g2);
      CompileIsLayout(ss[i], st);
      assert st1 == CState(st.tape + w, g1);
      CompileStatementsIsLayout(block, i + 1, st1, hw);
      Assoc(st.tape, w, rest);
      CheckedCons(ss, i);
    }
  }

  lemma CheckedCons(ss: seq<Expr>, i: nat)
    requires i < |ss|
    ensures HasCheckedStatement(ss[i..]) <==> ss[i].Return? || ss[i].While? || HasCheckedStatement(ss[i + 1..])
  {
    var rest := ss[i + 1..];
    if HasCheckedStatement(rest) {
      var j :| 0 <= j < |rest| && (rest[j].Return? || rest[j].While?);
      assert ss[i..][j + 1] == rest[j];
    }
    if HasCheckedStatement(ss[i..]) && !ss[i].Return? && !ss[i].While? {
      var j :| 0 <= j < |ss[i..]| && (ss[i..][j].Return? || ss[i..][j].While?);
      assert j > 0;
      assert rest[j - 1] == ss[i..][j];
    }
    if ss[i].Return? || ss[i].While? {
      assert ss[i..][0] == ss[i];
    }
  }

  /** A block's two reserved words end up as its kind and the tape length after its last statement. */
  lemma BlockHeader(e: Expr, st: CState)
    requires e.Block?
    ensures var r := Compile(e, st);
            && |r.tape| >= |st.tape| + 2
            && r.tape[|st.tape|] == Op(if HasCheckedStatement(e.statements) then OpBlockChecked else OpBlock)
            && r.tape[|st.tape| + 1] == Offset(|r.tape|)
  {
    CompileIsLayout(e, st);
  }

  /** A loop is laid out as the While hint, `while_loop`, its end offset, the condition, the body. */
  lemma WhileHeader(e: Expr, st: CState)
    requires e.While?
    ensures var r := Compile(e, st);
            var c := Compile(e.cond, Append(st, [Hint(WhileHint), Op(OpWhileLoop), Placeholder]));
            && |st.tape| + 3 <= |c.tape| <= |r.tape|
            && r.tape[|st.tape|..|st.tape| + 3] == [Hint(WhileHint), Op(OpWhileLoop), Offset(|r.tape|)]
            && r.tape[|st.tape| + 3..|c.tape|] == c.tape[|st.tape| + 3..]
  {
    CompileIsLayout(e, st);
    var st1 := Append(st, [Hint(WhileHint), Op(OpWhileLoop), Placeholder]);
    CompileIsLayout(e.cond, st1);
  }

  /**
   * A Return at position `j` of a block hides everything from `j` on: the block is laid out
   * exactly as the block of its first `j` statements.
   */
  lemma {:induction false} ReturnDropsRest(ss: seq<Expr>, j: nat, i: nat, base: nat, g: seq<string>)
    requires i <= j < |ss| && ss[j].Return?
    ensures LayoutStatements(Block(ss), i, base, g) == LayoutStatements(Block(ss[..j]), i, base, g)
    decreases j - i
  {
    var short := ss[..j];
    if i == j {
    } else {
      assert short[i] == ss[i];
      if !ss[i].Return? {
        var (w, g1) := Layout(ss[i], base, g);
        ReturnDropsRest(ss, j, i + 1, base + |w|, g1);
      }
    }
  }

  /** Compiling never removes a name, and keeps the names table free of duplicates. */
  lemma {:induction false} CompileKeepsNames(e: Expr, st: CState)
    requires NoDuplicates(st.globals)
    ensures NoDuplicates(Compile(e, st).globals)
    decreases e, 1, 0
  {
    match e
    case Boolean(_) =>
    case Float(_) =>
    case Var(Global(name)) =>
      InternContract(st.globals, name);
    case Assign(Global(name), value) =>
      var (idx, g1) := Intern(st.globals, name);
      var st1 := CState(st.tape + [Op(OpLocalAssign), Slot(idx)], g1);
      assert Compile(e, st) == Compile(value, st1);
      InternContract(st.globals, name);
      CompileKeepsNames(value, st1);
    case Return(value) =>
      var st1 := Append(st, [Hint(ReturnHint)]);
      assert Compile(e, st) == Compile(value, st1);
      CompileKeepsNames(value, st1);
    case Block(_) =>
      var st2 := Append(st, [Placeholder, Placeholder]);
      assert Compile(e, st).globals == CompileStatements(e, 0, st2, false).0.globals;
      StatementsKeepNames(e, 0, st2, false);
    case While(cond, body) =>
      var st1 := Append(st, [Hint(WhileHint), Op(OpWhileLoop), Placeholder]);
      assert Compile(e, st).globals == Compile(body, Compile(cond, st1)).globals;
      CompileKeepsNames(cond, st1);
      CompileKeepsNames(body, Compile(cond, st1));
    case BinaryOp(lhs, op, rhs) =>
      var st1 := Append(st, [Op(OpNative(op))]);
      assert Compile(e, st) == Compile(rhs, Compile(lhs, st1));
      CompileKeepsNames(lhs, st1);
      CompileKeepsNames(rhs, Compile(lhs, st1));
    case Add(_, _) =>
  }

  lemma {:induction false} StatementsKeepNames(block: Expr, i: nat, st: CState, hasWhile: bool)
    requires block.Block? && i <= |block.statements| && NoDuplicates(st.globals)
    ensures NoDuplicates(CompileStatements(block, i, st, hasWhile).0.globals)
    decreases block, 0, |block.statements| - i
  {
    var ss := block.statements;
    if i < |ss| && !ss[i].Return? {
      var st1 := Compile(ss[i], st);
      assert CompileStatements(block, i, st, hasWhile) == CompileStatements(block, i + 1, st1, hasWhile || ss[i].While?);
      CompileKeepsNames(ss[i], st);
      StatementsKeepNames(block, i + 1, st1, hasWhile || ss[i].While?);
    }
  }

  /** Every slot word names an entry of the table: `var` and `assign` index inside the globals. */
  ghost predicate SlotsBelow(words: seq<Word>, n: nat) {
    forall k :: 0 <= k < |words| && words[k].Slot? ==> words[k].n < n
  }

  lemma SlotsBelowAppend(a: seq<Word>, b: seq<Word>, n: nat, m: nat)
    requires SlotsBelow(a, n) && SlotsBelow(b, m) && n <= m
    ensures SlotsBelow(a + b, m)
  {
    forall k | 0 <= k < |a + b| && (a + b)[k].Slot?
      ensures (a + b)[k].n < m
    {
      if k < |a| {
        assert (a + b)[k] == a[k];
      } else {
        assert (a + b)[k] == b[k - |a|];
      }
    }
  }

  /** The words of a layout only use slots of the table the layout leaves, which only grows. */
  lemma {:induction false} LayoutSlots(e: Expr, base: nat, g: seq<string>)
    ensures g <= Layout(e, base, g).1
    ensures SlotsBelow(Layout(e, base, g).0, |Layout(e, base, g).1|)
    decreases e, 2, 0
  {
    match e
    case Boolean(_) =>
    case Float(_) =>
    case Var(Global(name)) =>
    case Assign(Global(name), value) =>
      AssignSlots(e, base, g);
    case Return(value) =>
      var (w, g1) := Layout(value, base + 1, g);
      assert Layout(e, base, g) == ([Hint(ReturnHint)] + w, g1);
      LayoutSlots(value, base + 1, g);
      SlotsBelowAppend([Hint(ReturnHint)], w, 0, |g1|);
    case Block(statements) =>
      BlockSlots(e, base, g);
    case While(cond, body) =>
      WhileSlots(e, base, g);
    case BinaryOp(lhs, op, rhs) =>
      BinarySlots(e, base, g);
    case Add(_, _) =>
  }

  lemma {:induction false} AssignSlots(e: Expr, base: nat, g: seq<string>)
    requires e.Assign?
    ensures g <= Layout(e, base, g).1
    ensures SlotsBelow(Layout(e, base, g).0, |Layout(e, base, g).1|)
    decreases e, 1, 0
  {
    var (idx, g1) := Intern(g, e.target.name);
    var (w, g2) := Layout(e.value, base + 2, g1);
    assert Layout(e, base, g) == ([Op(OpLocalAssign), Slot(idx)] + w, g2);
    LayoutSlots(e.value, base + 2, g1);
    SlotsBelowAppend([Op(OpLocalAssign), Slot(idx)], w, |g1|, |g2|);
  }

  lemma {:induction false} BlockSlots(e: Expr, base: nat, g: seq<string>)
    requires e.Block?
    ensures g <= Layout(e, base, g).1
    ensures SlotsBelow(Layout(e, base, g).0, |Layout(e, base, g).1|)
    decreases e, 1, 0
  {
    var (w, g1) := LayoutStatements(e, 0, base + 2, g);
    var kind := if HasCheckedStatement(e.statements) then OpBlockChecked else OpBlock;
    assert Layout(e, base, g) == ([Op(kind), Offset(base + 2 + |w|)] + w, g1);
    StatementSlots(e, 0, base + 2, g);
    SlotsBelowAppend([Op(kind), Offset(base + 2 + |w|)], w, 0, |g1|);
  }

  lemma {:induction false} WhileSlots(e: Expr, base: nat, g: seq<string>)
    requires e.While?
    ensures g <= Layout(e, base, g).1
    ensures SlotsBelow(Layout(e, base, g).0, |Layout(e, base, g).1|)
    decreases e, 1, 0
  {
    var (wc, g1) := Layout(e.cond, base + 3, g);
    var (wb, g2) := Layout(e.body, base + 3 + |wc|, g1);
    var head := [Hint(WhileHint), Op(OpWhileLoop), Offset(base + 3 + |wc| + |wb|)];
    assert Layout(e, base, g) == (head + wc + wb, g2);
    LayoutSlots(e.cond, base + 3, g);
    LayoutSlots(e.body, base + 3 + |wc|, g1);
    SlotsBelowAppend(head, wc, 0, |g1|);
    SlotsBelowAppend(head + wc, wb, |g1|, |g2|);
  }

  lemma {:induction false} BinarySlots(e: Expr, base: nat, g: seq<string>)
    requires e.BinaryOp?
    ensures g <= Layout(e, base, g).1
    ensures SlotsBelow(Layout(e, base, g).0, |Layout(e, base, g).1|)
    decreases e, 1, 0
  {
    var (wl, g1) := Layout(e.lhs, base + 1, g);
    var (wr, g2) := Layout(e.rhs, base + 1 + |wl|, g1);
    assert Layout(e, base, g) == ([Op(OpNative(e.op))] + wl + wr, g2);
    LayoutSlots(e.lhs, base + 1, g);
    LayoutSlots(e.rhs, base + 1 + |wl|, g1);
    SlotsBelowAppend([Op(OpNative(e.op))], wl, 0, |g1|);
    SlotsBelowAppend([Op(OpNative(e.op))] + wl, wr, |g1|, |g2|);
  }

  lemma {:induction false} StatementSlots(block: Expr, i: nat, base: nat, g: seq<string>)
    requires block.Block? && i <= |block.statements|
    ensures g <= LayoutStatements(block, i, base, g).1
    ensures SlotsBelow(LayoutStatements(block, i, base, g).0, |LayoutStatements(block, i, base, g).1|)
    decreases block, 0, |block.statements| - i
  {
    var ss := block.statements;
    if i < |ss| && !ss[i].Return? {
      var (w, g1) := Layout(ss[i], base, g);
      var (rest, g2) := LayoutStatements(block, i + 1, base + |w|, g1);
      assert LayoutStatements(block, i, base, g) == (w + rest, g2);
      LayoutSlots(ss[i], base, g);
      StatementSlots(block, i + 1, base + |w|, g1);
      SlotsBelowAppend(w, rest, |g1|, |g2|);
    }
  }

  /**
   * A whole program compiled from an empty compiler: its slots all index into the globals
   * vector `CallContext::new` sizes from the names table, and that table has no duplicates.
   */
  lemma ProgramSlots(e: Expr)
    ensures var r := Compile(e, CState([], []));
            SlotsBelow(r.tape, |r.globals|) && NoDuplicates(r.globals)
  {
    CompileIsLayout(e, CState([], []));
    LayoutSlots(e, 0, []);
    CompileKeepsNames(e, CState([], []));
  }

  /** `ImCompiler`: the tape under construction and the names table. */
  class ImCompiler {
    var futureTape: seq<Word>
    var globals: seq<string>

    /** `ImCompiler::new`. */
    constructor ()
      ensures futureTape == [] && globals == []
    {
      futureTape := [];
      globals := [];
    }

    function State(): CState
      reads this
    {
      CState(futureTape, globals)
    }

    /** `push`. */
    method Push(w: Word)
      modifies this
      ensures futureTape == old(futureTape) + [w] && globals == old(globals)
    {
      futureTape := futureTape + [w];
    }

    /** `constant_get_or_def`: look the name up, appending it when it is new. */
    method ConstantGetOrDef(name: string) returns (idx: nat)
      modifies this
      ensures (idx, globals) == Intern(old(globals), name) && futureTape == old(futureTape)
    {
      var found, i := Position(globals, name);
      if !found {
        globals := globals + [name];
        idx := |globals| - 1;
      } else {
        idx := i;
      }
    }

    /** `compile_expr`. */
    method CompileExpr(e: Expr)
      modifies this
      ensures State() == Compile(e, old(State()))
      decreases e
    {
      match e
      case Boolean(b) =>
        Push(Op(if b then OpTr else OpFl));
      case Float(x) =>
        Push(Op(OpFloat));
        Push(FloatBits(x));
      case Var(Global(name)) =>
        var idx := ConstantGetOrDef(name);
        Push(Op(OpLocalVar));
        Push(Slot(idx));
      case Assign(Global(name), value) =>
        ghost var st0 := State();
        Push(Op(OpLocalAssign));
        var idx := ConstantGetOrDef(name);
        Push(Slot(idx));
        assert State() == CState(st0.tape + [Op(OpLocalAssign), Slot(idx)], Intern(st0.globals, name).1);
        assert Compile(e, st0) == Compile(value, State());
        CompileExpr(value);
      case Return(value) =>
        ghost var st0 := State();
        Push(Hint(ReturnHint));
        assert Compile(e, st0) == Compile(value, State());
        CompileExpr(value);
      case Block(statements) =>
        ghost var st0 := State();
        var instrIdx := |futureTape|;
        Push(Placeholder);
        var nextInstr := |futureTape|;
        Push(Placeholder);
        assert State() == Append(st0, [Placeholder, Placeholder]);
        var hasReturn, hasWhile := false, false;
        ghost var spec := CompileStatements(e, 0, State(), false);
        var i := 0;
        while i < |statements|
          invariant i <= |statements| && !hasReturn
          invariant CompileStatements(e, i, State(), hasWhile) == spec
          invariant instrIdx + 1 == nextInstr < |futureTape|
        {
          if statements[i].Return? {
            hasReturn := true;
            break;
          } else if statements[i].While? {
            hasWhile := true;
          }
          CompileExpr(statements[i]);
          i := i + 1;
        }
        assert spec == (State(), hasReturn, hasWhile);
        futureTape := futureTape[instrIdx := Op(BlockKind(hasReturn, hasWhile))];
        futureTape := futureTape[nextInstr := Offset(|futureTape|)];
      case While(cond, body) =>
        ghost var st0 := State();
        Push(Hint(WhileHint));
        Push(Op(OpWhileLoop));
        var nextInstr := |futureTape|;
        Push(Placeholder);
        ghost var st1 := State();
        assert st1 == Append(st0, [Hint(WhileHint), Op(OpWhileLoop), Placeholder]);
        CompileExpr(cond);
        CompileExpr(body);
        assert State() == Compile(body, Compile(cond, st1));
        futureTape := futureTape[nextInstr := Offset(|futureTape|)];
      case BinaryOp(lhs, op, rhs) =>
        ghost var st0 := State();
        Push(Op(OpNative(op)));
        assert Compile(e, st0) == Compile(rhs, Compile(lhs, State()));
        CompileExpr(lhs);
        CompileExpr(rhs);
      case Add(_, _) =>
    }
  }
}
