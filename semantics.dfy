/**
 * What the dispatch functions of implementations.rs do to a call context, as functions of the
 * tape and the machine state. Each returns the value the Rust function returns together with the
 * state it leaves, or the failure that stops the program.
 *
 * A step bound `fuel` makes every function total: each dispatch and each loop iteration spends
 * one unit, and running out is the failure `OutOfFuel` (the source would still be running).
 */
module Semantics {
  import opened Wrappers
  import opened Values
  import opened Ast
  import opened Words
  import opened TapeCursor

  /** `CallContext` without its unused `stack`: the tape's cursor and the globals vector. */
  datatype Machine = Machine(cur: Cursor, globals: seq<Value>)

  /** What the hint check `loop_body!` decides before a statement. */
  datatype Check =
    | Proceed            // no hint word: the enclosing loop runs the statement
    | Exit(value: Value)  // a Return, or a While that exited early: the enclosing function returns
    | Again              // a While that ran to its end: the enclosing loop goes round again

  function WithCursor(m: Machine, c: Cursor): Machine {
    m.(cur := c)
  }

  function MIndex(code: Code, m: Machine): (r: Result<(nat, Machine)>)
    ensures r.Ok? ==> r.value.1.globals == m.globals && r.value.1.cur.offset == m.cur.offset + 1
  {
    var (n, c) :- NextIndex(code, m.cur);
    Ok((n, WithCursor(m, c)))
  }

  /** The expression an operator's function computes (`impl_apply_op!`); `%` is wired to `+`. */
  function Apply(fp: FloatOps, op: Operator, l: Value, r: Value): (res: Result<Value>)
    ensures op in {Operator.Add, Operator.Sub, Operator.Mul, Operator.Div, Operator.Rem} ==>
              (res.Ok? <==> l.Float? && r.Float?) && (res.Err? ==> res.error == TypeMismatch)
    ensures op in {Operator.Eq, Operator.Neq, Operator.Lt, Operator.Lte, Operator.Gt, Operator.Gte} ==>
              res.Ok? && res.value.Boolean?
  {
    match op
    case Add => Arith(fp.add, l, r)
    case Sub => Arith(fp.sub, l, r)
    case Mul => Arith(fp.mul, l, r)
    case Div => Arith(fp.div, l, r)
    case Rem => Arith(fp.add, l, r)
    case Eq => Ok(Value.Boolean(l == r))
    case Neq => Ok(Value.Boolean(l != r))
    case Lt => Ok(Value.Boolean(Less(fp, l, r)))
    case Lte => Ok(Value.Boolean(LessEq(fp, l, r)))
    case Gt => Ok(Value.Boolean(Less(fp, r, l)))
    case Gte => Ok(Value.Boolean(LessEq(fp, r, l)))
  }

  /** `impl_apply_arithmetic!`: floats only, else "Invalid arguments!". */
  function Arith(f: (Num, Num) -> Num, l: Value, r: Value): (res: Result<Value>)
    ensures res.Ok? <==> l.Float? && r.Float?
    ensures res.Ok? ==> res.value.Float?
    ensures res.Err? ==> res.error == TypeMismatch
  {
    if l.Float? && r.Float? then Ok(Value.Float(f(l.x, r.x))) else Err(TypeMismatch)
  }

  /**
   * The comparisons are the derived `PartialEq`/`PartialOrd` of `Value`: `!=` negates `==`,
   * `>`/`>=` are `<`/`<=` with the operands swapped, `<=` is `<` or `==`; on a strict total float
   * order exactly one of `<`, `==`, `>` holds. `%` computes what `+` computes.
   */
  lemma OperatorLaws(fp: FloatOps, l: Value, r: Value)
    ensures Apply(fp, Operator.Eq, l, r) == Ok(Value.Boolean(l == r))
    ensures Apply(fp, Operator.Neq, l, r) == Ok(Value.Boolean(!Apply(fp, Operator.Eq, l, r).value.b))
    ensures Apply(fp, Operator.Gt, l, r) == Apply(fp, Operator.Lt, r, l)
    ensures Apply(fp, Operator.Gte, l, r) == Apply(fp, Operator.Lte, r, l)
    ensures Apply(fp, Operator.Lte, l, r).value.b
        <==> Apply(fp, Operator.Lt, l, r).value.b || Apply(fp, Operator.Eq, l, r).value.b
    ensures StrictTotalOrder(fp.less) ==>
              var lt := Apply(fp, Operator.Lt, l, r).value.b;
              var eq := Apply(fp, Operator.Eq, l, r).value.b;
              var gt := Apply(fp, Operator.Gt, l, r).value.b;
              (lt || eq || gt) && !(lt && eq) && !(lt && gt) && !(eq && gt)
    ensures Apply(fp, Operator.Rem, l, r) == Apply(fp, Operator.Add, l, r)
  {
    if StrictTotalOrder(fp.less) {
      ValueOrderTotal(fp, l, r, l);
      ValueOrderTotal(fp, r, l, r);
    }
  }

  /** `get_next_func::<Value>().call(ctx)`: take a dispatch function off the tape and run it. */
  function Dispatch(fp: FloatOps, code: Code, fuel: nat, m: Machine): (r: Result<(Value, Machine)>)
    ensures r.Ok? ==> |r.value.1.globals| == |m.globals| && r.value.1.cur.offset > m.cur.offset
    decreases fuel, 0, 0
  {
    if fuel == 0 then Err(OutOfFuel)
    else
      var (op, c) :- NextOp(code, m.cur);
      Exec(fp, code, fuel - 1, op, WithCursor(m, c))
  }

  /** `get_next_func::<Option<Value>>().call(ctx)`: only `while_loop` has that type. */
  function DispatchOpt(fp: FloatOps, code: Code, fuel: nat, m: Machine): (r: Result<(Option<Value>, Machine)>)
    ensures r.Ok? ==> |r.value.1.globals| == |m.globals| && r.value.1.cur.offset > m.cur.offset
    decreases fuel, 0, 0
  {
    if fuel == 0 then Err(OutOfFuel)
    else
      var (op, c) :- NextOp(code, m.cur);
      if op == OpWhileLoop then ExecWhile(fp, code, fuel - 1, WithCursor(m, c)) else Err(IllTyped)
  }

  /**
   * `loop_body!(ctx, end)`: a word in 1001..=2000 at the pointer is a hint. It is skipped;
   * Return evaluates the next expression and exits, While runs the loop that follows and exits
   * only if that loop returned a value; every other hint is fatal.
   */
  function HintCheck(fp: FloatOps, code: Code, fuel: nat, end: nat, m: Machine): (r: Result<(Check, Machine)>)
    ensures r.Ok? ==> |r.value.1.globals| == |m.globals| && r.value.1.cur.offset >= m.cur.offset
    ensures r.Ok? && r.value.0.Proceed? ==> r.value.1 == m
    decreases fuel, 1, 0
  {
    var w :- ReadAt(code, m.cur);
    if !IsHintWord(w) then Ok((Proceed, m))
    else
      var m1 := WithCursor(m, Skipped(m.cur, 1));
      var hint := AsInt(w).value;
      if hint == ReturnHint then
        var (v, m2) :- Dispatch(fp, code, fuel, m1);
        Ok((Exit(v), WithCursor(m2, Moved(m2.cur, end))))
      else if hint == WhileHint then
        var (o, m2) :- DispatchOpt(fp, code, fuel, m1);
        match o
        case Some(x) => Ok((Exit(x), WithCursor(m2, Moved(m2.cur, end))))
        case None => Ok((Again, m2))
      else Err(InvalidHint(hint))
  }

  /** The loop of `flow::block`: dispatch until `offset` reaches `end`. */
  function BlockLoop(fp: FloatOps, code: Code, fuel: nat, end: nat, m: Machine): (r: Result<(Value, Machine)>)
    ensures r.Ok? ==> |r.value.1.globals| == |m.globals| && r.value.1.cur.offset >= m.cur.offset
    ensures r.Ok? ==> r.value.0 == Nil && r.value.1.cur.offset >= end
    decreases fuel, 2, 0
  {
    if m.cur.offset >= end then Ok((Nil, m))
    else if fuel == 0 then Err(OutOfFuel)
    else
      var (_, m1) :- Dispatch(fp, code, fuel, m);
      BlockLoop(fp, code, fuel - 1, end, m1)
  }

  /** The loop of `flow::block_checked`: the hint check, then the statement, until `end`. */
  function CheckedLoop(fp: FloatOps, code: Code, fuel: nat, end: nat, m: Machine): (r: Result<(Value, Machine)>)
    ensures r.Ok? ==> |r.value.1.globals| == |m.globals| && r.value.1.cur.offset >= m.cur.offset
    decreases fuel, 2, 0
  {
    if m.cur.offset >= end then Ok((Nil, m))
    else if fuel == 0 then Err(OutOfFuel)
    else
      var (check, m1) :- HintCheck(fp, code, fuel, end, m);
      match check
      case Exit(v) => Ok((v, m1))
      case Again => CheckedLoop(fp, code, fuel - 1, end, m1)
      case Proceed =>
        var (_, m2) :- Dispatch(fp, code, fuel, m1);
        CheckedLoop(fp, code, fuel - 1, end, m2)
  }

  /**
   * One round of `flow::while_loop` from the condition on: a falsy condition ends the loop with
   * `skip(end)` and None; otherwise the hint check, the body, and `restore(saved)`. A While hint
   * whose loop ran out (`continue`) goes round again without restoring.
   */
  function WhileIter(fp: FloatOps, code: Code, fuel: nat, end: nat, saved: Cursor, m: Machine)
    : (r: Result<(Option<Value>, Machine)>)
    requires saved.offset <= m.cur.offset
    ensures r.Ok? ==> |r.value.1.globals| == |m.globals| && r.value.1.cur.offset >= saved.offset
    ensures r.Ok? && r.value.0.None? ==> r.value.1.cur.offset >= end
    decreases fuel, 2, 0
  {
    if fuel == 0 then Err(OutOfFuel)
    else
      var (c, m1) :- Dispatch(fp, code, fuel, m);
      if !Truthy(c) then Ok((None, WithCursor(m1, Skipped(m1.cur, end))))
      else
        var (check, m2) :- HintCheck(fp, code, fuel, end, m1);
        match check
        case Exit(v) => Ok((Some(v), m2))
        case Again => WhileIter(fp, code, fuel - 1, end, saved, m2)
        case Proceed =>
          var (_, m3) :- Dispatch(fp, code, fuel, m2);
          WhileIter(fp, code, fuel - 1, end, saved, WithCursor(m3, saved))
  }

  /**
   * The branch loop of `flow::conditional` with `k` branches left: each branch is a jump word
   * and a condition; the first truthy one runs its expression and jumps to `endJmp`, a falsy
   * one jumps to its own word. With no branch left, the final expression is the result.
   */
  function CondLoop(fp: FloatOps, code: Code, fuel: nat, k: nat, endJmp: nat, m: Machine): (r: Result<(Value, Machine)>)
    ensures r.Ok? ==> |r.value.1.globals| == |m.globals| && r.value.1.cur.offset > m.cur.offset
    decreases fuel, 2, k
  {
    if k == 0 then Dispatch(fp, code, fuel, m)
    else
      var (ifFalse, m1) :- MIndex(code, m);
      var (c, m2) :- Dispatch(fp, code, fuel, m1);
      if Truthy(c) then
        var (v, m3) :- Dispatch(fp, code, fuel, m2);
        Ok((v, WithCursor(m3, Moved(m3.cur, endJmp))))
      else
        CondLoop(fp, code, fuel, k - 1, endJmp, WithCursor(m2, Moved(m2.cur, ifFalse)))
  }

  /** `var` (either copy): the slot word, then that global. */
  function ExecVar(code: Code, m: Machine): (r: Result<(Value, Machine)>)
    ensures r.Ok? ==> r.value.1 == WithCursor(m, Skipped(m.cur, 1))
    ensures r.Ok? <==> NextIndex(code, m.cur).Ok? && NextIndex(code, m.cur).value.0 < |m.globals|
    ensures r.Ok? ==> r.value.0 == m.globals[NextIndex(code, m.cur).value.0]
  {
    var (idx, m1) :- MIndex(code, m);
    if idx < |m.globals| then Ok((m.globals[idx], m1)) else Err(IndexOutOfBounds)
  }

  /** `assign` (either copy): the slot word, then the value expression, then the store. */
  function ExecAssign(fp: FloatOps, code: Code, fuel: nat, m: Machine): (r: Result<(Value, Machine)>)
    ensures r.Ok? ==> r.value.0 == Nil && |r.value.1.globals| == |m.globals| && r.value.1.cur.offset > m.cur.offset
    decreases fuel, 3, 0
  {
    var (idx, m1) :- MIndex(code, m);
    var (v, m2) :- Dispatch(fp, code, fuel, m1);
    if idx < |m2.globals| then Ok((Nil, m2.(globals := m2.globals[idx := v]))) else Err(IndexOutOfBounds)
  }

  /** `impl_op!`: the left operand, then the right one, then the operator. */
  function ExecNative(fp: FloatOps, code: Code, fuel: nat, op: Operator, m: Machine): (r: Result<(Value, Machine)>)
    ensures r.Ok? ==> |r.value.1.globals| == |m.globals| && r.value.1.cur.offset > m.cur.offset
    decreases fuel, 3, 0
  {
    var (l, m1) :- Dispatch(fp, code, fuel, m);
    var (rv, m2) :- Dispatch(fp, code, fuel, m1);
    var v :- Apply(fp, op, l, rv);
    Ok((v, m2))
  }

  /** `while_loop`: the end word, `save()`, then the rounds. */
  function ExecWhile(fp: FloatOps, code: Code, fuel: nat, m: Machine): (r: Result<(Option<Value>, Machine)>)
    ensures r.Ok? ==> |r.value.1.globals| == |m.globals| && r.value.1.cur.offset > m.cur.offset
    decreases fuel, 3, 0
  {
    var (end, m1) :- MIndex(code, m);
    WhileIter(fp, code, fuel, end, m1.cur, m1)
  }

  /** A dispatch function called for a `Value`. */
  function Exec(fp: FloatOps, code: Code, fuel: nat, op: Opcode, m: Machine): (r: Result<(Value, Machine)>)
    ensures r.Ok? ==> |r.value.1.globals| == |m.globals| && r.value.1.cur.offset >= m.cur.offset
    decreases fuel, 4, 0
  {
    match op
    case OpTr => Ok((Value.Boolean(true), m))
    case OpFl => Ok((Value.Boolean(false), m))
    case OpFloat =>
      var (x, c) :- NextNum(code, m.cur);
      Ok((Value.Float(x), WithCursor(m, c)))
    case OpVar => ExecVar(code, m)
    case OpLocalVar => ExecVar(code, m)
    case OpAssign => ExecAssign(fp, code, fuel, m)
    case OpLocalAssign => ExecAssign(fp, code, fuel, m)
    case OpNative(o) => ExecNative(fp, code, fuel, o, m)
    case OpBlock =>
      var (end, m1) :- MIndex(code, m);
      BlockLoop(fp, code, fuel, end, m1)
    case OpBlockChecked =>
      var (end, m1) :- MIndex(code, m);
      CheckedLoop(fp, code, fuel, end, m1)
    case OpConditional =>
      var (k, m1) :- MIndex(code, m);
      var (endJmp, m2) :- MIndex(code, m1);
      CondLoop(fp, code, fuel, k, endJmp, m2)
    case OpWhileLoop => Err(IllTyped)
  }

  /** `CallContext::new(tape, size, n)`: pointer and offset at 0, `n` globals holding 0.0. */
  function Start(n: nat): (m: Machine)
    ensures m.cur == Cursor(0, 0) && |m.globals| == n
    ensures forall i :: 0 <= i < n ==> m.globals[i] == Value.Float(Zero)
  {
    Machine(Cursor(0, 0), seq(n, _ => Value.Float(Zero)))
  }

  /** `CallContext::execute`: dispatch the first word of a fresh context. */
  function Execute(fp: FloatOps, code: Code, globalsAmt: nat, fuel: nat): (r: Result<(Value, Machine)>)
    ensures r.Ok? ==> |r.value.1.globals| == globalsAmt && r.value.1.cur.offset > 0
  {
    Dispatch(fp, code, fuel, Start(globalsAmt))
  }
}
