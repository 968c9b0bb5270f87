/**
 * The tape compiler and the tape machine against a direct evaluator of the expression tree.
 *
 * For straight-line code (literals, globals, assignments, operators and blocks of those), the
 * words `compile_expr` lays out, dispatched from their first word, compute what evaluating the
 * tree computes: the same value or the same failure, the same globals, and the cursor ends
 * exactly past the construct with its pointer and offset still in step.
 */
module Correctness {
  import opened Wrappers
  import opened Values
  import opened Ast
  import opened Words
  import opened Interning
  import opened Compiler
  import opened TapeCursor
  import opened Semantics

  /** Expressions without control hints: no Return, no While, and no Add (which emits nothing). */
  predicate Straight(e: Expr) {
    match e
    case Float(_) => true
    case Boolean(_) => true
    case Var(_) => true
    case Assign(_, value) => Straight(value)
    case BinaryOp(lhs, _, rhs) => Straight(lhs) && Straight(rhs)
    case Block(ss) => forall j :: 0 <= j < |ss| ==> Straight(ss[j])
    case Add(_, _) => false
    case Return(_) => false
    case While(_, _) => false
  }

  /** Global variables by name; a name never assigned reads as 0.0, as `CallContext::new` fills them. */
  type Env = map<string, Value>

  function Lookup(env: Env, name: string): Value {
    if name in env then env[name] else Value.Float(Zero)
  }

  /** The reference evaluator: children left to right, operators through `Apply`, blocks are Nil. */
  function Eval(fp: FloatOps, e: Expr, env: Env): Result<(Value, Env)>
    requires Straight(e)
    decreases e, 1, 0
  {
    match e
    case Float(x) => Ok((Value.Float(x), env))
    case Boolean(b) => Ok((Value.Boolean(b), env))
    case Var(Global(name)) => Ok((Lookup(env, name), env))
    case Assign(Global(name), value) =>
      var (v, env1) :- Eval(fp, value, env);
      Ok((Nil, env1[name := v]))
    case BinaryOp(lhs, op, rhs) =>
      var (l, env1) :- Eval(fp, lhs, env);
      var (r, env2) :- Eval(fp, rhs, env1);
      var v :- Apply(fp, op, l, r);
      Ok((v, env2))
    case Block(_) => EvalStatements(fp, e, 0, env)
  }

  function EvalStatements(fp: FloatOps, block: Expr, i: nat, env: Env): Result<(Value, Env)>
    requires block.Block? && Straight(block) && i <= |block.statements|
    decreases block, 0, |block.statements| - i
  {
    if i == |block.statements| then Ok((Nil, env))
    else
      var (_, env1) :- Eval(fp, block.statements[i], env);
      EvalStatements(fp, block, i + 1, env1)
  }

  /** Enough fuel for every dispatch and block iteration of a straight expression. */
  function Need(e: Expr): nat
    decreases e, 1, 0
  {
    match e
    case Assign(_, value) => 1 + Need(value)
    case BinaryOp(lhs, _, rhs) => 1 + Max(Need(lhs), Need(rhs))
    case Block(ss) => 1 + |ss| + NeedStatements(e, 0)
    case _ => 1
  }

  function NeedStatements(block: Expr, i: nat): nat
    requires block.Block? && i <= |block.statements|
    decreases block, 0, |block.statements| - i
  {
    if i == |block.statements| then 0 else Max(Need(block.statements[i]), NeedStatements(block, i + 1))
  }

  function Max(a: nat, b: nat): nat {
    if a < b then b else a
  }

  /** `words` sits in `code` from index `base` on, inside both the buffer and `size`. */
  ghost predicate Placed(code: Code, words: seq<Word>, base: nat) {
    Occurs(code.words, words, base) && base + |words| <= code.size
  }

  lemma PlacedSplit(code: Code, a: seq<Word>, b: seq<Word>, base: nat)
    requires Placed(code, a + b, base)
    ensures Placed(code, a, base) && Placed(code, b, base + |a|)
  {
    OccursSplit(code.words, a, b, base);
  }

  /** The machine's globals vector holds, slot by slot, the value of the name in that slot. */
  ghost predicate Represents(table: seq<string>, vals: seq<Value>, env: Env) {
    && |vals| == |table|
    && NoDuplicates(table)
    && forall i :: 0 <= i < |table| ==> vals[i] == Lookup(env, table[i])
  }

  /** A machine run and an evaluation agree, the run ending synced at `end`. */
  ghost predicate Agrees(run: Result<(Value, Machine)>, ev: Result<(Value, Env)>, end: nat, table: seq<string>) {
    match ev
    case Err(e) => run == Err(e)
    case Ok((v, env)) =>
      && run.Ok?
      && run.value.0 == v
      && run.value.1.cur == Cursor(end, end)
      && Represents(table, run.value.1.globals, env)
  }

  /** One dispatch from a synced cursor on an opcode word. */
  lemma DispatchOpAt(fp: FloatOps, code: Code, fuel: nat, p: nat, vals: seq<Value>)
    requires fuel > 0 && p < code.size && p < |code.words| && code.words[p].Op?
    ensures Dispatch(fp, code, fuel, Machine(Cursor(p, p), vals))
         == Exec(fp, code, fuel - 1, code.words[p].code, Machine(Cursor(p + 1, p + 1), vals))
  {
  }

  /** One dispatch from a synced cursor on an operator's function word. */
  lemma NativeAt(fp: FloatOps, code: Code, fuel: nat, p: nat, vals: seq<Value>, op: Operator)
    requires fuel > 0 && p < code.size && p < |code.words| && code.words[p] == Op(OpNative(op))
    ensures Dispatch(fp, code, fuel, Machine(Cursor(p, p), vals))
         == ExecNative(fp, code, fuel - 1, op, Machine(Cursor(p + 1, p + 1), vals))
  {
    DispatchOpAt(fp, code, fuel, p, vals);
  }

  lemma AssignAt(fp: FloatOps, code: Code, fuel: nat, p: nat, vals: seq<Value>)
    requires fuel > 0 && p < code.size && p < |code.words| && code.words[p] == Op(OpLocalAssign)
    ensures Dispatch(fp, code, fuel, Machine(Cursor(p, p), vals))
         == ExecAssign(fp, code, fuel - 1, Machine(Cursor(p + 1, p + 1), vals))
  {
    DispatchOpAt(fp, code, fuel, p, vals);
  }

  /** An integer operand word read from a synced cursor. */
  lemma IndexAt(code: Code, p: nat, vals: seq<Value>)
    requires p < code.size && p < |code.words| && AsInt(code.words[p]).Some?
    ensures MIndex(code, Machine(Cursor(p, p), vals)) == Ok((AsInt(code.words[p]).value, Machine(Cursor(p + 1, p + 1), vals)))
  {
  }

  /** A straight expression always lays out at least one word. */
  lemma StraightNonEmpty(e: Expr, base: nat, g: seq<string>)
    requires Straight(e)
    ensures |Layout(e, base, g).0| >= 1
  {
    match e
    case Assign(Global(name), value) =>
      var (idx, g1) := Intern(g, name);
      assert Layout(e, base, g).0 == [Op(OpLocalAssign), Slot(idx)] + Layout(value, base + 2, g1).0;
    case BinaryOp(lhs, op, rhs) =>
      var (wl, g1) := Layout(lhs, base + 1, g);
      assert Layout(e, base, g).0 == [Op(OpNative(op))] + wl + Layout(rhs, base + 1 + |wl|, g1).0;
    case Block(_) =>
    case Float(_) =>
    case Boolean(_) =>
    case Var(Global(_)) =>
  }

  /** A slot `Intern` hands out stays the slot of that name in any table extending the result. */
  lemma SlotOfName(g: seq<string>, name: string, table: seq<string>)
    requires Intern(g, name).1 <= table
    ensures Intern(g, name).0 < |table| && table[Intern(g, name).0] == name
  {
  }

  /**
   * The main theorem: dispatching the layout of a straight expression, placed at `base` with the
   * cursor synced there and enough fuel, agrees with evaluating the expression, provided the
   * globals represent the environment under a names table extending the layout's.
   */
  lemma {:induction false} DispatchAgrees(fp: FloatOps, code: Code, e: Expr, base: nat, g: seq<string>,
                                          table: seq<string>, env: Env, vals: seq<Value>, fuel: nat)
    requires Straight(e) && fuel >= Need(e)
    requires Placed(code, Layout(e, base, g).0, base) && Layout(e, base, g).1 <= table
    requires Represents(table, vals, env)
    ensures Agrees(Dispatch(fp, code, fuel, Machine(Cursor(base, base), vals)), Eval(fp, e, env),
                   base + |Layout(e, base, g).0|, table)
    decreases e, 2
  {
    var w := Layout(e, base, g).0;
    var m1 := Machine(Cursor(base + 1, base + 1), vals);
    match e
    case Float(x) =>
      assert w == [Op(OpFloat), FloatBits(x)];
      assert code.words[base] == w[0] && code.words[base + 1] == w[1];
      DispatchOpAt(fp, code, fuel, base, vals);
      assert Exec(fp, code, fuel - 1, OpFloat, m1) == Ok((Value.Float(x), Machine(Cursor(base + 2, base + 2), vals)));
    case Boolean(b) =>
      assert w == [Op(if b then OpTr else OpFl)];
      assert code.words[base] == w[0];
      DispatchOpAt(fp, code, fuel, base, vals);
    case Var(Global(name)) =>
      var (idx, g1) := Intern(g, name);
      assert w == [Op(OpLocalVar), Slot(idx)];
      assert code.words[base] == w[0] && code.words[base + 1] == w[1];
      SlotOfName(g, name, table);
      DispatchOpAt(fp, code, fuel, base, vals);
      IndexAt(code, base + 1, vals);
      assert ExecVar(code, m1) == Ok((vals[idx], Machine(Cursor(base + 2, base + 2), vals)));
    case Assign(Global(name), value) => AssignAgrees(fp, code, e, base, g, table, env, vals, fuel);
    case BinaryOp(lhs, op, rhs) => BinaryAgrees(fp, code, e, base, g, table, env, vals, fuel);
    case Block(_) => BlockAgrees(fp, code, e, base, g, table, env, vals, fuel);
  }

  /** `assign` after its slot word: the value's dispatch, then the store. */
  lemma AssignStep(fp: FloatOps, code: Code, f: nat, m1: Machine, idx: nat, m2: Machine)
    requires MIndex(code, m1) == Ok((idx, m2))
    ensures Dispatch(fp, code, f, m2).Err? ==> ExecAssign(fp, code, f, m1) == Err(Dispatch(fp, code, f, m2).error)
    ensures Dispatch(fp, code, f, m2).Ok? ==>
              var (v, m3) := Dispatch(fp, code, f, m2).value;
              ExecAssign(fp, code, f, m1)
                == if idx < |m3.globals| then Ok((Nil, m3.(globals := m3.globals[idx := v]))) else Err(IndexOutOfBounds)
  {
  }

  /** An operator after its opcode word: the left dispatch, the right dispatch, then `Apply`. */
  lemma NativeStep(fp: FloatOps, code: Code, f: nat, op: Operator, m1: Machine)
    ensures Dispatch(fp, code, f, m1).Err? ==> ExecNative(fp, code, f, op, m1) == Err(Dispatch(fp, code, f, m1).error)
    ensures Dispatch(fp, code, f, m1).Ok? ==>
              var (l, m2) := Dispatch(fp, code, f, m1).value;
              && (Dispatch(fp, code, f, m2).Err? ==> ExecNative(fp, code, f, op, m1) == Err(Dispatch(fp, code, f, m2).error))
              && (Dispatch(fp, code, f, m2).Ok? ==>
                    var (r, m3) := Dispatch(fp, code, f, m2).value;
                    ExecNative(fp, code, f, op, m1)
                      == if Apply(fp, op, l, r).Ok? then Ok((Apply(fp, op, l, r).value, m3)) else Err(Apply(fp, op, l, r).error))
  {
  }

  lemma {:induction false} AssignAgrees(fp: FloatOps, code: Code, e: Expr, base: nat, g: seq<string>,
                                        table: seq<string>, env: Env, vals: seq<Value>, fuel: nat)
    requires e.Assign? && Straight(e) && fuel >= Need(e)
    requires Placed(code, Layout(e, base, g).0, base) && Layout(e, base, g).1 <= table
    requires Represents(table, vals, env)
    ensures Agrees(Dispatch(fp, code, fuel, Machine(Cursor(base, base), vals)), Eval(fp, e, env),
                   base + |Layout(e, base, g).0|, table)
    decreases e, 1
  {
    var (idx, g1) := Intern(g, e.target.name);
    var (wv, g2) := Layout(e.value, base + 2, g1);
    var head := [Op(OpLocalAssign), Slot(idx)];
    AssignShape(e, base, g);
    PlacedSplit(code, head, wv, base);
    assert code.words[base] == head[0] && code.words[base + 1] == head[1];
    StoreAgrees(fp, code, e, base, g, table, env, vals, fuel, idx, g1, wv, g2);
    assert base + |Layout(e, base, g).0| == base + 2 + |wv|;
  }

  /** The assign word, the slot word, then the value's code: one dispatch stores the value's result. */
  lemma {:induction false} StoreAgrees(fp: FloatOps, code: Code, e: Expr, base: nat, g: seq<string>,
                                       table: seq<string>, env: Env, vals: seq<Value>, fuel: nat,
                                       idx: nat, g1: seq<string>, wv: seq<Word>, g2: seq<string>)
    requires e.Assign? && Straight(e) && fuel >= Need(e)
    requires base + 1 < code.size && base + 1 < |code.words|
    requires code.words[base] == Op(OpLocalAssign) && code.words[base + 1] == Slot(idx)
    requires (idx, g1) == Intern(g, e.target.name) && (wv, g2) == Layout(e.value, base + 2, g1)
    requires Placed(code, wv, base + 2) && g1 <= g2 && g2 <= table
    requires Represents(table, vals, env)
    ensures Agrees(Dispatch(fp, code, fuel, Machine(Cursor(base, base), vals)), Eval(fp, e, env),
                   base + 2 + |wv|, table)
    decreases e, 0
  {
    var name := e.target.name;
    var m0 := Machine(Cursor(base, base), vals);
    var m1 := Machine(Cursor(base + 1, base + 1), vals);
    var m2 := Machine(Cursor(base + 2, base + 2), vals);
    AssignAt(fp, code, fuel, base, vals);
    IndexAt(code, base + 1, vals);
    SlotOfName(g, name, table);
    DispatchAgrees(fp, code, e.value, base + 2, g1, table, env, vals, fuel - 1);
    var ev := Eval(fp, e.value, env);
    StoreStep(fp, code, fuel - 1, m1, idx, m2, ev, base + 2 + |wv|, table, name);
    assert Eval(fp, e, env) == if ev.Err? then Err(ev.error) else Ok((Nil, ev.value.1[name := ev.value.0]));
  }

  /** `assign` after its opcode word: the slot index, then the value's code that agrees, then the store. */
  lemma StoreStep(fp: FloatOps, code: Code, f: nat, m1: Machine, idx: nat, m2: Machine,
                  ev: Result<(Value, Env)>, end: nat, table: seq<string>, name: string)
    requires MIndex(code, m1) == Ok((idx, m2)) && idx < |table| && table[idx] == name
    requires Agrees(Dispatch(fp, code, f, m2), ev, end, table)
    ensures ev.Err? ==> ExecAssign(fp, code, f, m1) == Err(ev.error)
    ensures ev.Ok? ==> Agrees(ExecAssign(fp, code, f, m1), Ok((Nil, ev.value.1[name := ev.value.0])), end, table)
  {
    AssignStep(fp, code, f, m1, idx, m2);
    if ev.Ok? {
      var vals1 := Dispatch(fp, code, f, m2).value.1.globals;
      StoreRepresents(table, vals1, ev.value.1, idx, name, ev.value.0);
    }
  }

  /** Writing a value into a name's slot is updating that name in the environment. */
  lemma StoreRepresents(table: seq<string>, vals: seq<Value>, env: Env, idx: nat, name: string, v: Value)
    requires Represents(table, vals, env) && idx < |table| && table[idx] == name
    ensures Represents(table, vals[idx := v], env[name := v])
  {
    forall i | 0 <= i < |table| ensures vals[idx := v][i] == Lookup(env[name := v], table[i]) {
      if i != idx {
        assert table[i] != name;
      }
    }
  }

  lemma {:induction false} BinaryAgrees(fp: FloatOps, code: Code, e: Expr, base: nat, g: seq<string>,
                                        table: seq<string>, env: Env, vals: seq<Value>, fuel: nat)
    requires e.BinaryOp? && Straight(e) && fuel >= Need(e)
    requires Placed(code, Layout(e, base, g).0, base) && Layout(e, base, g).1 <= table
    requires Represents(table, vals, env)
    ensures Agrees(Dispatch(fp, code, fuel, Machine(Cursor(base, base), vals)), Eval(fp, e, env),
                   base + |Layout(e, base, g).0|, table)
    decreases e, 1
  {
    var (wl, g1) := Layout(e.lhs, base + 1, g);
    var (wr, g2) := Layout(e.rhs, base + 1 + |wl|, g1);
    var head := [Op(OpNative(e.op))];
    BinaryShape(e, base, g);
    PlacedSplit(code, head + wl, wr, base);
    PlacedSplit(code, head, wl, base);
    assert code.words[base] == head[0];
    OperatorAgrees(fp, code, e, base, g, table, env, vals, fuel, wl, g1, wr, g2);
    assert base + |Layout(e, base, g).0| == base + 1 + |wl| + |wr|;
  }

  /** An operator's function word followed by its operands' code: one dispatch runs both and applies the operator. */
  lemma {:induction false} OperatorAgrees(fp: FloatOps, code: Code, e: Expr, base: nat, g: seq<string>,
                                          table: seq<string>, env: Env, vals: seq<Value>, fuel: nat,
                                          wl: seq<Word>, g1: seq<string>, wr: seq<Word>, g2: seq<string>)
    requires e.BinaryOp? && Straight(e) && fuel >= Need(e)
    requires base < code.size && base < |code.words| && code.words[base] == Op(OpNative(e.op))
    requires (wl, g1) == Layout(e.lhs, base + 1, g) && (wr, g2) == Layout(e.rhs, base + 1 + |wl|, g1)
    requires Placed(code, wl, base + 1) && Placed(code, wr, base + 1 + |wl|) && g1 <= g2 && g2 <= table
    requires Represents(table, vals, env)
    ensures Agrees(Dispatch(fp, code, fuel, Machine(Cursor(base, base), vals)), Eval(fp, e, env),
                   base + 1 + |wl| + |wr|, table)
    decreases e, 0, 1
  {
    NativeAt(fp, code, fuel, base, vals, e.op);
    OperandsAgree(fp, code, e, base + 1, g, table, env, vals, fuel - 1, wl, g1, wr, g2);
  }

  /** The two operands of an operator, laid out one after the other from `base`, then `Apply`. */
  lemma {:induction false} OperandsAgree(fp: FloatOps, code: Code, e: Expr, base: nat, g: seq<string>,
                                         table: seq<string>, env: Env, vals: seq<Value>, f: nat,
                                         wl: seq<Word>, g1: seq<string>, wr: seq<Word>, g2: seq<string>)
    requires e.BinaryOp? && Straight(e) && f >= Need(e.lhs) && f >= Need(e.rhs)
    requires (wl, g1) == Layout(e.lhs, base, g) && (wr, g2) == Layout(e.rhs, base + |wl|, g1)
    requires Placed(code, wl, base) && Placed(code, wr, base + |wl|) && g1 <= g2 && g2 <= table
    requires Represents(table, vals, env)
    ensures Agrees(ExecNative(fp, code, f, e.op, Machine(Cursor(base, base), vals)), Eval(fp, e, env),
                   base + |wl| + |wr|, table)
    decreases e, 0, 0
  {
    var m1 := Machine(Cursor(base, base), vals);
    OperandRuns(fp, code, e, base, g, table, env, vals, f, wl, g1, wr, g2);
    var evl := Eval(fp, e.lhs, env);
    var evr := if evl.Ok? then Eval(fp, e.rhs, evl.value.1) else Ok((Nil, env));
    OperandsStep(fp, code, f, e.op, m1, evl, evr, base + |wl|, base + |wl| + |wr|, table);
    assert Eval(fp, e, env) == if evl.Err? then Err(evl.error) else if evr.Err? then Err(evr.error)
                               else (var a := Apply(fp, e.op, evl.value.0, evr.value.0);
                                     if a.Ok? then Ok((a.value, evr.value.1)) else Err(a.error));
  }

  /** Each operand's code, run in turn from `base`, agrees with evaluating that operand in turn. */
  lemma {:induction false} OperandRuns(fp: FloatOps, code: Code, e: Expr, base: nat, g: seq<string>,
                                       table: seq<string>, env: Env, vals: seq<Value>, f: nat,
                                       wl: seq<Word>, g1: seq<string>, wr: seq<Word>, g2: seq<string>)
    requires e.BinaryOp? && Straight(e) && f >= Need(e.lhs) && f >= Need(e.rhs)
    requires (wl, g1) == Layout(e.lhs, base, g) && (wr, g2) == Layout(e.rhs, base + |wl|, g1)
    requires Placed(code, wl, base) && Placed(code, wr, base + |wl|) && g1 <= g2 && g2 <= table
    requires Represents(table, vals, env)
    ensures Agrees(Dispatch(fp, code, f, Machine(Cursor(base, base), vals)), Eval(fp, e.lhs, env), base + |wl|, table)
    ensures Eval(fp, e.lhs, env).Ok? ==>
              Agrees(Dispatch(fp, code, f, Dispatch(fp, code, f, Machine(Cursor(base, base), vals)).value.1),
                     Eval(fp, e.rhs, Eval(fp, e.lhs, env).value.1), base + |wl| + |wr|, table)
    decreases e, 0, 0, 0
  {
    var m1 := Machine(Cursor(base, base), vals);
    DispatchAgrees(fp, code, e.lhs, base, g, table, env, vals, f);
    var evl := Eval(fp, e.lhs, env);
    if evl.Ok? {
      var vals1 := Dispatch(fp, code, f, m1).value.1.globals;
      assert Dispatch(fp, code, f, m1).value.1 == Machine(Cursor(base + |wl|, base + |wl|), vals1);
      DispatchAgrees(fp, code, e.rhs, base + |wl|, g1, table, evl.value.1, vals1, f);
    }
  }

  /** An operator after its opcode word: the left operand agrees, then the right one, then `Apply`. */
  lemma OperandsStep(fp: FloatOps, code: Code, f: nat, op: Operator, m1: Machine,
                     evl: Result<(Value, Env)>, evr: Result<(Value, Env)>, mid: nat, end: nat, table: seq<string>)
    requires Agrees(Dispatch(fp, code, f, m1), evl, mid, table)
    requires evl.Ok? ==> Agrees(Dispatch(fp, code, f, Dispatch(fp, code, f, m1).value.1), evr, end, table)
    ensures evl.Err? ==> ExecNative(fp, code, f, op, m1) == Err(evl.error)
    ensures evl.Ok? && evr.Err? ==> ExecNative(fp, code, f, op, m1) == Err(evr.error)
    ensures evl.Ok? && evr.Ok? ==>
              var a := Apply(fp, op, evl.value.0, evr.value.0);
              Agrees(ExecNative(fp, code, f, op, m1), if a.Ok? then Ok((a.value, evr.value.1)) else Err(a.error), end, table)
  {
    NativeStep(fp, code, f, op, m1);
  }

  lemma {:induction false} BlockAgrees(fp: FloatOps, code: Code, e: Expr, base: nat, g: seq<string>,
                                       table: seq<string>, env: Env, vals: seq<Value>, fuel: nat)
    requires e.Block? && Straight(e) && fuel >= Need(e)
    requires Placed(code, Layout(e, base, g).0, base) && Layout(e, base, g).1 <= table
    requires Represents(table, vals, env)
    ensures Agrees(Dispatch(fp, code, fuel, Machine(Cursor(base, base), vals)), Eval(fp, e, env),
                   base + |Layout(e, base, g).0|, table)
    decreases e, 1
  {
    var (w, g1) := LayoutStatements(e, 0, base + 2, g);
    var end := base + 2 + |w|;
    assert !HasCheckedStatement(e.statements);
    var head := [Op(OpBlock), Offset(end)];
    assert Layout(e, base, g) == (head + w, g1);
    PlacedSplit(code, head, w, base);
    assert code.words[base] == head[0] && code.words[base + 1] == head[1];
    DispatchOpAt(fp, code, fuel, base, vals);
    IndexAt(code, base + 1, vals);
    var m2 := Machine(Cursor(base + 2, base + 2), vals);
    assert Dispatch(fp, code, fuel, Machine(Cursor(base, base), vals)) == BlockLoop(fp, code, fuel - 1, end, m2);
    StatementsAgree(fp, code, e, 0, base + 2, g, end, table, env, vals, fuel - 1);
  }

  lemma {:induction false} StatementsAgree(fp: FloatOps, code: Code, block: Expr, i: nat, base: nat, g: seq<string>,
                                           end: nat, table: seq<string>, env: Env, vals: seq<Value>, fuel: nat)
    requires block.Block? && Straight(block) && i <= |block.statements|
    requires fuel >= |block.statements| - i + NeedStatements(block, i)
    requires Placed(code, LayoutStatements(block, i, base, g).0, base) && LayoutStatements(block, i, base, g).1 <= table
    requires end == base + |LayoutStatements(block, i, base, g).0|
    requires Represents(table, vals, env)
    ensures Agrees(BlockLoop(fp, code, fuel, end, Machine(Cursor(base, base), vals)), EvalStatements(fp, block, i, env),
                   end, table)
    decreases block, 0, |block.statements| - i
  {
    var ss := block.statements;
    if i < |ss| {
      var s := ss[i];
      var (w, g1) := Layout(s, base, g);
      var (rest, g2) := LayoutStatements(block, i + 1, base + |w|, g1);
      StatementPlaced(code, block, i, base, g, w, g1, rest, g2);
      var m := Machine(Cursor(base, base), vals);
      assert fuel >= Need(s) && fuel - 1 >= |ss| - (i + 1) + NeedStatements(block, i + 1);
      DispatchAgrees(fp, code, s, base, g, table, env, vals, fuel);
      var ev := Eval(fp, s, env);
      var after := if ev.Ok? then EvalStatements(fp, block, i + 1, ev.value.1) else Ok((Nil, env));
      if ev.Ok? {
        var m1 := Dispatch(fp, code, fuel, m).value.1;
        assert m1 == Machine(Cursor(base + |w|, base + |w|), m1.globals);
        StatementsAgree(fp, code, block, i + 1, base + |w|, g1, end, table, ev.value.1, m1.globals, fuel - 1);
      }
      LoopStep(fp, code, fuel, end, m, ev, after, base + |w|, table);
      EvalStatementsStep(fp, block, i, env);
    }
  }

  /** Where a block's statements sit: statement `i`, non-empty, then the statements after it. */
  lemma StatementPlaced(code: Code, block: Expr, i: nat, base: nat, g: seq<string>,
                        w: seq<Word>, g1: seq<string>, rest: seq<Word>, g2: seq<string>)
    requires block.Block? && Straight(block) && i < |block.statements|
    requires Placed(code, LayoutStatements(block, i, base, g).0, base)
    requires (w, g1) == Layout(block.statements[i], base, g) && (rest, g2) == LayoutStatements(block, i + 1, base + |w|, g1)
    ensures Straight(block.statements[i]) && 0 < |w|
    ensures Placed(code, w, base) && Placed(code, rest, base + |w|)
    ensures LayoutStatements(block, i, base, g) == (w + rest, g2) && g1 <= g2
  {
    assert Straight(block.statements[i]);
    assert LayoutStatements(block, i, base, g) == (w + rest, g2);
    StraightNonEmpty(block.statements[i], base, g);
    PlacedSplit(code, w, rest, base);
    StatementSlots(block, i + 1, base + |w|, g1);
  }

  lemma EvalStatementsStep(fp: FloatOps, block: Expr, i: nat, env: Env)
    requires block.Block? && Straight(block) && i < |block.statements|
    ensures var ev := Eval(fp, block.statements[i], env);
            EvalStatements(fp, block, i, env) == if ev.Err? then Err(ev.error) else EvalStatements(fp, block, i + 1, ev.value.1)
  {
  }

  /** One round of `block`'s loop: a statement that agrees, then the rest of the loop that agrees. */
  lemma LoopStep(fp: FloatOps, code: Code, fuel: nat, end: nat, m: Machine,
                 ev: Result<(Value, Env)>, after: Result<(Value, Env)>, mid: nat, table: seq<string>)
    requires m.cur.offset < end && 0 < fuel
    requires Agrees(Dispatch(fp, code, fuel, m), ev, mid, table)
    requires ev.Ok? ==> Agrees(BlockLoop(fp, code, fuel - 1, end, Dispatch(fp, code, fuel, m).value.1), after, end, table)
    ensures ev.Err? ==> BlockLoop(fp, code, fuel, end, m) == Err(ev.error)
    ensures ev.Ok? ==> Agrees(BlockLoop(fp, code, fuel, end, m), after, end, table)
  {
  }

  /**
   * A whole straight program compiled by a fresh `ImCompiler` and run by a fresh `CallContext`
   * sized from its names table returns what the evaluator returns from an empty environment,
   * and leaves the globals holding the evaluator's final environment.
   */
  lemma ProgramAgrees(fp: FloatOps, e: Expr, fuel: nat)
    requires Straight(e) && fuel >= Need(e)
    ensures var c := Compile(e, CState([], []));
            Agrees(Execute(fp, Code(c.tape, |c.tape|), |c.globals|, fuel), Eval(fp, e, map[]), |c.tape|, c.globals)
  {
    var c := Compile(e, CState([], []));
    CompileIsLayout(e, CState([], []));
    CompileKeepsNames(e, CState([], []));
    var (w, g) := Layout(e, 0, []);
    assert c.tape == w && c.globals == g;
    var code := Code(c.tape, |c.tape|);
    assert Placed(code, w, 0);
    var vals := Start(|g|).globals;
    assert Represents(g, vals, map[]);
    DispatchAgrees(fp, code, e, 0, [], g, map[], vals, fuel);
  }
}
