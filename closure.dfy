/**
 * `ClosureCompiler` (closure.rs): the second evaluator of the same expression trees. Each
 * expression becomes a closure over a `CallContext` of an operand stack and a constants
 * slice. The closures are modelled by what they do: `Closure` has one constructor per kind
 * of boxed closure `compile_expr` builds, holding exactly what that closure captures.
 */
module Closures {
  import opened Wrappers
  import opened Values
  import opened Ast
  import opened Interning

  /** The `Value` of closure.rs (it has no booleans). */
  datatype CValue = CFloat(x: Num) | CNil

  datatype Closure =
    | PushVar(slot: nat)                  // push `constants[idx]`
    | PushFloat(n: Num)                   // push `Float(n)`
    | Store(slot: nat, value: Closure)    // run the value, pop it into `constants[idx]`
    | AddUp(lhs: Closure, rhs: Closure)   // run both, pop rhs then lhs, push their sum
    | Sequence(closures: seq<Closure>)    // run the statements' closures in order
    | NoOp                                // the `_ =>` arm

  /** What `compile` returns: the program's closure and the number of names it interned. */
  datatype Program = Program(body: Closure, slots: nat)

  /** A `CallContext`: the operand stack and the constants. */
  datatype Frame = Frame(stack: seq<CValue>, constants: seq<CValue>)

  /** `compile_expr`, threading the constants table that `constant_get_or_def` extends. */
  function CompileClosure(e: Expr, g: seq<string>): (r: (Closure, seq<string>))
    ensures g <= r.1
    decreases e, 1
  {
    match e
    case Var(Global(name)) =>
      var (idx, g1) := Intern(g, name);
      (PushVar(idx), g1)
    case Float(n) => (PushFloat(n), g)
    case Assign(Global(name), value) =>
      var (idx, g1) := Intern(g, name);
      var (c, g2) := CompileClosure(value, g1);
      (Store(idx, c), g2)
    case Add(lhs, rhs) =>
      var (l, g1) := CompileClosure(lhs, g);
      var (r, g2) := CompileClosure(rhs, g1);
      (AddUp(l, r), g2)
    case Block(_) =>
      var (cs, g1) := CompileAll(e, 0, g);
      (Sequence(cs), g1)
    case _ => (NoOp, g)
  }

  /** The `map(|e| self.compile_expr(e)).collect()` over a block's statements from `i` on. */
  function CompileAll(block: Expr, i: nat, g: seq<string>): (r: (seq<Closure>, seq<string>))
    requires block.Block? && i <= |block.statements|
    ensures g <= r.1 && |r.0| == |block.statements| - i
    decreases block, 0, |block.statements| - i
  {
    if i == |block.statements| then ([], g)
    else
      var (c, g1) := CompileClosure(block.statements[i], g);
      var (rest, g2) := CompileAll(block, i + 1, g1);
      ([c] + rest, g2)
  }

  /** `ClosureCompiler::compile`: a fresh table, the program's closure, and the table's size. */
  function ProgramOf(e: Expr): (p: Program)
    ensures p.body == CompileClosure(e, []).0
  {
    var (c, g) := CompileClosure(e, []);
    Program(c, |g|)
  }

  /** `ctx.stack.pop().unwrap()`. */
  function Popped(f: Frame): (r: Result<(CValue, Frame)>)
    ensures r.Ok? <==> |f.stack| > 0
    ensures r.Ok? ==> f.stack == r.value.1.stack + [r.value.0] && r.value.1.constants == f.constants
    ensures r.Err? ==> r.error == StackUnderflow
  {
    if |f.stack| == 0 then Err(StackUnderflow)
    else Ok((f.stack[|f.stack| - 1], f.(stack := f.stack[..|f.stack| - 1])))
  }

  function Push(f: Frame, v: CValue): Frame {
    f.(stack := f.stack + [v])
  }

  /** Calling a closure on a context. The constants slice never changes length. */
  function Effect(fp: FloatOps, c: Closure, f: Frame): (r: Result<Frame>)
    ensures r.Ok? ==> |r.value.constants| == |f.constants|
    decreases c, 1
  {
    match c
    case PushVar(idx) =>
      if idx < |f.constants| then Ok(Push(f, f.constants[idx])) else Err(IndexOutOfBounds)
    case PushFloat(n) => Ok(Push(f, CFloat(n)))
    case Store(idx, value) =>
      var f1 :- Effect(fp, value, f);
      var (v, f2) :- Popped(f1);
      if idx < |f2.constants| then Ok(f2.(constants := f2.constants[idx := v])) else Err(IndexOutOfBounds)
    case AddUp(lhs, rhs) =>
      var f1 :- Effect(fp, lhs, f);
      var f2 :- Effect(fp, rhs, f1);
      var (y, f3) :- Popped(f2);
      var (x, f4) :- Popped(f3);
      if x.CFloat? && y.CFloat? then Ok(Push(f4, CFloat(fp.add(x.x, y.x)))) else Err(TypeMismatch)
    case Sequence(_) => EffectAll(fp, c, 0, f)
    case NoOp => Ok(f)
  }

  /** `for i in 0..closures.len()` from `i` on. */
  function EffectAll(fp: FloatOps, c: Closure, i: nat, f: Frame): (r: Result<Frame>)
    requires c.Sequence? && i <= |c.closures|
    ensures r.Ok? ==> |r.value.constants| == |f.constants|
    decreases c, 0, |c.closures| - i
  {
    if i == |c.closures| then Ok(f)
    else
      var f1 :- Effect(fp, c.closures[i], f);
      EffectAll(fp, c, i + 1, f1)
  }

  /** Invoking the compiled program: an empty stack and one Nil constant per interned name. */
  function Invocation(fp: FloatOps, p: Program): (r: Result<Frame>)
    ensures r.Ok? ==> |r.value.constants| == p.slots
  {
    Effect(fp, p.body, Frame([], seq(p.slots, _ => CNil)))
  }

  // ---------------------------------------------------------------------------------------
  // A reference meaning by names, and the proof that the compiled closures implement it.
  // ---------------------------------------------------------------------------------------

  type Env = map<string, CValue>

  /** A name never assigned reads as Nil, the constants' initial value. */
  function Lookup(env: Env, name: string): CValue {
    if name in env then env[name] else CNil
  }

  /** The expressions that push exactly one value: floats, reads, and sums of these. */
  predicate ValueExpr(e: Expr) {
    match e
    case Float(_) => true
    case Var(_) => true
    case Add(lhs, rhs) => ValueExpr(lhs) && ValueExpr(rhs)
    case _ => false
  }

  /**
   * The programs whose closures never pop a value that is not theirs: an assignment stores a
   * value expression; blocks hold such statements; the variants compiled to no-ops are free.
   */
  predicate Tidy(e: Expr) {
    match e
    case Assign(_, value) => ValueExpr(value)
    case Block(ss) => forall i :: 0 <= i < |ss| ==> Tidy(ss[i])
    case Float(_) => true
    case Var(_) => true
    case Add(_, _) => ValueExpr(e)
    case _ => true
  }

  /** The value of a value expression; adding a Nil is the "Add operation invalid!" panic. */
  function ValueOf(fp: FloatOps, e: Expr, env: Env): (r: Result<CValue>)
    requires ValueExpr(e)
    ensures r.Ok? ==> (e.Float? ==> r.value == CFloat(e.n)) && (e.Add? ==> r.value.CFloat?)
    ensures r.Err? ==> r.error == TypeMismatch
  {
    match e
    case Float(n) => Ok(CFloat(n))
    case Var(Global(name)) => Ok(Lookup(env, name))
    case Add(lhs, rhs) =>
      var x :- ValueOf(fp, lhs, env);
      var y :- ValueOf(fp, rhs, env);
      if x.CFloat? && y.CFloat? then Ok(CFloat(fp.add(x.x, y.x))) else Err(TypeMismatch)
  }

  /** What a tidy program does: the values it leaves on the stack, and the new bindings. */
  function Perform(fp: FloatOps, e: Expr, env: Env): (r: Result<(seq<CValue>, Env)>)
    requires Tidy(e)
    ensures r.Ok? && !e.Block? ==> |r.value.0| == (if ValueExpr(e) then 1 else 0)
    decreases e, 1
  {
    if ValueExpr(e) then
      var v :- ValueOf(fp, e, env);
      Ok(([v], env))
    else
      match e
      case Assign(Global(name), value) =>
        var x :- ValueOf(fp, value, env);
        Ok(([], env[name := x]))
      case Block(_) => PerformAll(fp, e, 0, env)
      case _ => Ok(([], env))
  }

  function PerformAll(fp: FloatOps, block: Expr, i: nat, env: Env): (r: Result<(seq<CValue>, Env)>)
    requires block.Block? && Tidy(block) && i <= |block.statements|
    decreases block, 0, |block.statements| - i
  {
    if i == |block.statements| then Ok(([], env))
    else
      var (vs, env1) :- Perform(fp, block.statements[i], env);
      var (ws, env2) :- PerformAll(fp, block, i + 1, env1);
      Ok((vs + ws, env2))
  }

  /** The constants hold, slot by slot, the value bound to the name interned in that slot. */
  ghost predicate Represents(table: seq<string>, constants: seq<CValue>, env: Env) {
    && |constants| == |table|
    && forall i :: 0 <= i < |table| ==> constants[i] == Lookup(env, table[i])
  }

  /** A call that did what `spec` says to a context that started as `f`. */
  ghost predicate Matches(run: Result<Frame>, spec: Result<(seq<CValue>, Env)>, f: Frame, table: seq<string>) {
    match spec
    case Ok((vs, env)) => run.Ok? && run.value.stack == f.stack + vs && Represents(table, run.value.constants, env)
    case Err(e) => run == Err(e)
  }

  /** A value expression's closure pushes its value and leaves the constants alone. */
  lemma {:induction false} ValueAgrees(fp: FloatOps, e: Expr, g: seq<string>, table: seq<string>, f: Frame, env: Env)
    requires ValueExpr(e) && CompileClosure(e, g).1 <= table && Represents(table, f.constants, env)
    ensures ValueOf(fp, e, env).Ok? ==>
              Effect(fp, CompileClosure(e, g).0, f) == Ok(Push(f, ValueOf(fp, e, env).value))
    ensures ValueOf(fp, e, env).Err? ==> Effect(fp, CompileClosure(e, g).0, f) == Err(ValueOf(fp, e, env).error)
    decreases e
  {
    match e
    case Float(n) =>
    case Var(Global(name)) =>
      var (idx, g1) := Intern(g, name);
      assert idx < |table| && table[idx] == name;
    case Add(lhs, rhs) =>
      AddAgrees(fp, e, g, table, f, env);
  }

  lemma {:induction false} AddAgrees(fp: FloatOps, e: Expr, g: seq<string>, table: seq<string>, f: Frame, env: Env)
    requires e.Add? && ValueExpr(e) && CompileClosure(e, g).1 <= table && Represents(table, f.constants, env)
    ensures ValueOf(fp, e, env).Ok? ==>
              Effect(fp, CompileClosure(e, g).0, f) == Ok(Push(f, ValueOf(fp, e, env).value))
    ensures ValueOf(fp, e, env).Err? ==> Effect(fp, CompileClosure(e, g).0, f) == Err(ValueOf(fp, e, env).error)
    decreases e, 0
  {
    var (l, g1) := CompileClosure(e.lhs, g);
    var (r, g2) := CompileClosure(e.rhs, g1);
    assert CompileClosure(e, g) == (AddUp(l, r), g2);
    var x := ValueOf(fp, e.lhs, env);
    var y := ValueOf(fp, e.rhs, env);
    ValueAgrees(fp, e.lhs, g, table, f, env);
    if x.Ok? {
      ValueAgrees(fp, e.rhs, g1, table, Push(f, x.value), env);
    }
    AddEffect(fp, l, r, f, x, y);
  }

  /** `AddUp` runs both sides, then pops the right value and the left one and pushes their sum. */
  lemma AddEffect(fp: FloatOps, l: Closure, r: Closure, f: Frame, x: Result<CValue>, y: Result<CValue>)
    requires x.Err? ==> Effect(fp, l, f) == Err(x.error)
    requires x.Ok? ==> Effect(fp, l, f) == Ok(Push(f, x.value))
    requires x.Ok? && y.Err? ==> Effect(fp, r, Push(f, x.value)) == Err(y.error)
    requires x.Ok? && y.Ok? ==> Effect(fp, r, Push(f, x.value)) == Ok(Push(Push(f, x.value), y.value))
    ensures x.Err? ==> Effect(fp, AddUp(l, r), f) == Err(x.error)
    ensures x.Ok? && y.Err? ==> Effect(fp, AddUp(l, r), f) == Err(y.error)
    ensures x.Ok? && y.Ok? ==>
              Effect(fp, AddUp(l, r), f)
              == if x.value.CFloat? && y.value.CFloat? then Ok(Push(f, CFloat(fp.add(x.value.x, y.value.x)))) else Err(TypeMismatch)
  {
    if x.Ok? && y.Ok? {
      var f1 := Push(f, x.value);
      assert Popped(Push(f1, y.value)) == Ok((y.value, f1));
      assert Popped(f1) == Ok((x.value, f));
    }
  }

  /** Storing `v` at the slot of `name` keeps the constants in step with `env[name := v]`. */
  lemma StoreKeeps(table: seq<string>, constants: seq<CValue>, env: Env, idx: nat, name: string, v: CValue)
    requires Represents(table, constants, env) && NoDuplicates(table)
    requires idx < |table| && table[idx] == name
    ensures Represents(table, constants[idx := v], env[name := v])
  {
    forall i | 0 <= i < |table| ensures constants[idx := v][i] == Lookup(env[name := v], table[i]) {
      if i != idx {
        assert table[i] != name;
      }
    }
  }

  /**
   * The main theorem: the closure compiled for a tidy program, called on constants that
   * represent `env` under a duplicate-free table extending the compiler's, pushes exactly
   * the values `Perform` leaves and ends with constants representing the new bindings; where
   * `Perform` fails, the call panics with the same error.
   */
  lemma {:induction false} PerformAgrees(fp: FloatOps, e: Expr, g: seq<string>, table: seq<string>, f: Frame, env: Env)
    requires Tidy(e) && CompileClosure(e, g).1 <= table && NoDuplicates(table)
    requires Represents(table, f.constants, env)
    ensures Matches(Effect(fp, CompileClosure(e, g).0, f), Perform(fp, e, env), f, table)
    decreases e, 1
  {
    if ValueExpr(e) {
      ValueAgrees(fp, e, g, table, f, env);
    } else {
      match e
      case Assign(Global(name), value) =>
        var (idx, g1) := Intern(g, name);
        var (c, g2) := CompileClosure(value, g1);
        assert CompileClosure(e, g).0 == Store(idx, c);
        assert idx < |table| && table[idx] == name;
        ValueAgrees(fp, value, g1, table, f, env);
        var x := ValueOf(fp, value, env);
        if x.Ok? {
          assert Popped(Push(f, x.value)) == Ok((x.value, f));
          StoreKeeps(table, f.constants, env, idx, name, x.value);
          assert f.stack + [] == f.stack;
        }
      case Block(ss) =>
        var (cs, g1) := CompileAll(e, 0, g);
        assert CompileClosure(e, g).0 == Sequence(cs);
        StatementsAgree(fp, e, 0, g, table, f, env, Sequence(cs));
      case Boolean(_) =>
        assert f.stack + [] == f.stack;
      case While(_, _) =>
        assert f.stack + [] == f.stack;
      case Return(_) =>
        assert f.stack + [] == f.stack;
      case BinaryOp(_, _, _) =>
        assert f.stack + [] == f.stack;
    }
  }

  lemma {:induction false} StatementsAgree(fp: FloatOps, block: Expr, i: nat, g: seq<string>, table: seq<string>,
                                           f: Frame, env: Env, c: Closure)
    requires block.Block? && Tidy(block) && i <= |block.statements|
    requires c.Sequence? && |c.closures| == |block.statements|
    requires c.closures[i..] == CompileAll(block, i, g).0
    requires CompileAll(block, i, g).1 <= table && NoDuplicates(table)
    requires Represents(table, f.constants, env)
    ensures Matches(EffectAll(fp, c, i, f), PerformAll(fp, block, i, env), f, table)
    decreases block, 0, |block.statements| - i
  {
    if i == |block.statements| {
      assert f.stack + [] == f.stack;
    } else {
      var s := block.statements[i];
      assert Tidy(s);
      var (c1, g1) := CompileClosure(s, g);
      var (rest, g2) := CompileAll(block, i + 1, g1);
      assert CompileAll(block, i, g) == ([c1] + rest, g2);
      assert c.closures[i] == c1 && c.closures[i + 1..] == rest;
      PerformAgrees(fp, s, g, table, f, env);
      var p := Perform(fp, s, env);
      if p.Ok? {
        var (vs, env1) := p.value;
        var f1 := Effect(fp, c1, f).value;
        assert EffectAll(fp, c, i, f) == EffectAll(fp, c, i + 1, f1);
        StatementsAgree(fp, block, i + 1, g1, table, f1, env1, c);
        var q := PerformAll(fp, block, i + 1, env1);
        if q.Ok? {
          assert f.stack + vs + q.value.0 == f.stack + (vs + q.value.0);
        }
      }
    }
  }

  /** Compiling only appends new names, so the table stays duplicate-free. */
  lemma {:induction false} ClosureKeepsNames(e: Expr, g: seq<string>)
    requires NoDuplicates(g)
    ensures NoDuplicates(CompileClosure(e, g).1)
    decreases e, 1
  {
    match e
    case Var(Global(name)) =>
      InternContract(g, name);
    case Assign(Global(name), value) =>
      InternContract(g, name);
      ClosureKeepsNames(value, Intern(g, name).1);
    case Add(lhs, rhs) =>
      ClosureKeepsNames(lhs, g);
      ClosureKeepsNames(rhs, CompileClosure(lhs, g).1);
    case Block(_) =>
      AllKeepNames(e, 0, g);
    case _ =>
  }

  lemma {:induction false} AllKeepNames(block: Expr, i: nat, g: seq<string>)
    requires block.Block? && i <= |block.statements| && NoDuplicates(g)
    ensures NoDuplicates(CompileAll(block, i, g).1)
    decreases block, 0, |block.statements| - i
  {
    if i < |block.statements| {
      var g1 := CompileClosure(block.statements[i], g).1;
      ClosureKeepsNames(block.statements[i], g);
      AllKeepNames(block, i + 1, g1);
    }
  }

  /**
   * A tidy program, compiled and invoked from scratch, does what `Perform` says starting from
   * no bindings: every name reads as Nil until assigned.
   */
  lemma ProgramAgrees(fp: FloatOps, e: Expr)
    requires Tidy(e)
    ensures Matches(Invocation(fp, ProgramOf(e)), Perform(fp, e, map[]), Frame([], []), CompileClosure(e, []).1)
  {
    var (c, g) := CompileClosure(e, []);
    var f := Frame([], seq(|g|, _ => CNil));
    ClosureKeepsNames(e, []);
    assert Represents(g, f.constants, map[]);
    PerformAgrees(fp, e, [], g, f, map[]);
  }

  /** An assignment of an assignment: the inner store pops the value, the outer pop finds the stack empty. */
  lemma NestedAssignUnderflows(fp: FloatOps, x: string, y: string, n: Num)
    ensures Invocation(fp, ProgramOf(Assign(Global(x), Assign(Global(y), Expr.Float(n))))) == Err(StackUnderflow)
  {
    var e := Assign(Global(x), Assign(Global(y), Expr.Float(n)));
    var (i, g1) := Intern([], x);
    var (j, g2) := Intern(g1, y);
    assert CompileClosure(Expr.Float(n), g2) == (PushFloat(n), g2);
    assert CompileClosure(Assign(Global(y), Expr.Float(n)), g1) == (Store(j, PushFloat(n)), g2);
    assert ProgramOf(e) == Program(Store(i, Store(j, PushFloat(n))), |g2|);
    var f := Frame([], seq(|g2|, _ => CNil));
    assert Effect(fp, PushFloat(n), f) == Ok(Push(f, CFloat(n)));
    assert Popped(Push(f, CFloat(n))) == Ok((CFloat(n), f));
    assert Effect(fp, Store(j, PushFloat(n)), f) == Ok(f.(constants := f.constants[j := CFloat(n)]));
  }

  /** The variants the closure compiler has no arm for become no-ops and intern nothing. */
  lemma OthersAreNoOps(fp: FloatOps, e: Expr, g: seq<string>, f: Frame)
    requires e.Boolean? || e.While? || e.Return? || e.BinaryOp?
    ensures CompileClosure(e, g) == (NoOp, g) && Effect(fp, NoOp, f) == Ok(f)
  {
  }

  /** `ClosureCompiler`: the constants table, extended as names are met. */
  class ClosureCompiler {
    var constants: seq<string>

    constructor ()
      ensures constants == []
    {
      constants := [];
    }

    /** `constant_get_or_def`: the first slot holding `name`, appending it when it is new. */
    method ConstantGetOrDef(name: string) returns (idx: nat)
      modifies this
      ensures (idx, constants) == Intern(old(constants), name)
    {
      var found, i := Position(constants, name);
      if !found {
        constants := constants + [name];
        idx := |constants| - 1;
      } else {
        idx := i;
      }
    }

    method CompileExpr(e: Expr) returns (c: Closure)
      modifies this
      ensures (c, constants) == CompileClosure(e, old(constants))
      decreases e, 1
    {
      match e
      case Var(Global(name)) =>
        var idx := ConstantGetOrDef(name);
        c := PushVar(idx);
      case Float(n) =>
        c := PushFloat(n);
      case Assign(Global(name), value) =>
        var idx := ConstantGetOrDef(name);
        var val := CompileExpr(value);
        c := Store(idx, val);
      case Add(lhs, rhs) =>
        var l := CompileExpr(lhs);
        var r := CompileExpr(rhs);
        c := AddUp(l, r);
      case Block(instrs) =>
        var closures := CompileStatements(e);
        c := Sequence(closures);
      case _ =>
        c := NoOp;
    }

    /** The `iter().map(...).collect()` of a block's statements, one closure each, in order. */
    method CompileStatements(block: Expr) returns (closures: seq<Closure>)
      requires block.Block?
      modifies this
      ensures (closures, constants) == CompileAll(block, 0, old(constants))
      decreases block, 0
    {
      closures := [];
      var i := 0;
      ghost var g0 := constants;
      assert [] + CompileAll(block, 0, g0).0 == CompileAll(block, 0, g0).0;
      while i < |block.statements|
        invariant i <= |block.statements|
        invariant CompileAll(block, 0, g0) == (closures + CompileAll(block, i, constants).0, CompileAll(block, i, constants).1)
      {
        ghost var g := constants;
        ghost var prefix := closures;
        var c := CompileExpr(block.statements[i]);
        ghost var rest := CompileAll(block, i + 1, constants);
        assert CompileAll(block, i, g) == ([c] + rest.0, rest.1);
        closures := closures + [c];
        i := i + 1;
        assert prefix + ([c] + rest.0) == closures + rest.0;
      }
      assert closures + [] == closures;
    }
  }

  /** `ClosureCompiler::compile`: compile once with a fresh table. */
  method Compile(program: Expr) returns (p: Program)
    ensures p == ProgramOf(program)
  {
    var context := new ClosureCompiler();
    var closure := context.CompileExpr(program);
    p := Program(closure, |context.constants|);
  }

  /** The closure's `CallContext`: a stack it owns, and a constants slice it writes in place. */
  class ClosureContext {
    var stack: seq<CValue>
    const constants: array<CValue>
    const fp: FloatOps

    constructor (constants: array<CValue>, fp: FloatOps)
      ensures this.constants == constants && stack == [] && this.fp == fp
    {
      stack := [];
      this.constants := constants;
      this.fp := fp;
    }

    ghost function State(): Frame
      reads this, constants
    {
      Frame(stack, constants[..])
    }

    method Pop() returns (r: Result<CValue>)
      modifies this
      ensures Yields(r, Popped(old(State())), State())
    {
      if |stack| == 0 {
        return Err(StackUnderflow);
      }
      r := Ok(stack[|stack| - 1]);
      stack := stack[..|stack| - 1];
    }

    /** Calling closure `c` with this context. */
    method Call(c: Closure) returns (r: Result<()>)
      modifies this, constants
      ensures Effect(fp, c, old(State())).Ok? ==> r == Ok(()) && State() == Effect(fp, c, old(State())).value
      ensures Effect(fp, c, old(State())).Err? ==> r == Err(Effect(fp, c, old(State())).error)
      decreases c, 1
    {
      match c {
        case PushVar(idx) =>
          if idx >= constants.Length {
            return Err(IndexOutOfBounds);
          }
          stack := stack + [constants[idx]];
        case PushFloat(n) =>
          stack := stack + [CFloat(n)];
        case Store(idx, value) =>
          var v := Call(value);
          if v.Err? {
            return v;
          }
          var val := Pop();
          if val.Err? {
            return Err(val.error);
          }
          if idx >= constants.Length {
            return Err(IndexOutOfBounds);
          }
          constants[idx] := val.value;
        case AddUp(lhs, rhs) =>
          var l := Call(lhs);
          if l.Err? {
            return l;
          }
          var rv := Call(rhs);
          if rv.Err? {
            return rv;
          }
          var y := Pop();
          if y.Err? {
            return Err(y.error);
          }
          var x := Pop();
          if x.Err? {
            return Err(x.error);
          }
          if !(x.value.CFloat? && y.value.CFloat?) {
            return Err(TypeMismatch);
          }
          stack := stack + [CFloat(fp.add(x.value.x, y.value.x))];
        case Sequence(closures) =>
          ghost var spec := EffectAll(fp, c, 0, State());
          for i := 0 to |closures|
            invariant EffectAll(fp, c, i, State()) == spec
          {
            var step := Call(closures[i]);
            if step.Err? {
              return step;
            }
          }
        case NoOp =>
      }
      r := Ok(());
    }
  }

  /** Invoking the boxed program: fresh Nil constants, an empty stack, one call. */
  method Invoke(fp: FloatOps, p: Program) returns (r: Result<()>)
    ensures r.Ok? <==> Invocation(fp, p).Ok?
    ensures r.Err? ==> r.error == Invocation(fp, p).error
  {
    var constants := new CValue[p.slots](_ => CNil);
    var ctx := new ClosureContext(constants, fp);
    assert ctx.State() == Frame([], seq(p.slots, _ => CNil));
    r := ctx.Call(p.body);
  }
}
