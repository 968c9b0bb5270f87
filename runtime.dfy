/**
 * `CallContext` (imsta.rs) and the dispatch functions of implementations.rs as methods that
 * advance the tape in place and write the globals vector. Each method is proved to produce
 * exactly what the matching function of `Semantics` computes from the state it started in.
 */
module Runtime {
  import opened Wrappers
  import opened Values
  import opened Ast
  import opened Words
  import opened TapeCursor
  import opened Semantics

  class CallContext {
    const tape: Tape
    var globals: seq<Value>
    /** The float operations the opcodes apply. */
    const fp: FloatOps

    /** `CallContext::new(tape, size, globals_amt)`. */
    constructor (words: seq<Word>, size: nat, globalsAmt: nat, fp: FloatOps)
      ensures fresh(tape) && tape.code == Code(words, size) && this.fp == fp
      ensures State() == Start(globalsAmt)
    {
      tape := new Tape(words, size);
      globals := seq(globalsAmt, _ => Value.Float(Zero));
      this.fp := fp;
    }

    ghost function State(): Machine
      reads this, tape
    {
      Machine(tape.Here(), globals)
    }

    /** `execute`: run the dispatch function at the tape's pointer. */
    method Execute(fuel: nat) returns (r: Result<Value>)
      modifies this, tape
      ensures Yields(r, Semantics.Dispatch(fp, tape.code, fuel, old(State())), State())
    {
      r := Dispatch(fuel);
    }

    method Dispatch(fuel: nat) returns (r: Result<Value>)
      modifies this, tape
      ensures Yields(r, Semantics.Dispatch(fp, tape.code, fuel, old(State())), State())
      decreases fuel, 0, 0
    {
      if fuel == 0 {
        return Err(OutOfFuel);
      }
      var op := tape.GetNextFunc();
      if op.Err? {
        return Err(op.error);
      }
      r := Exec(fuel - 1, op.value);
    }

    method DispatchOpt(fuel: nat) returns (r: Result<Option<Value>>)
      modifies this, tape
      ensures Yields(r, Semantics.DispatchOpt(fp, tape.code, fuel, old(State())), State())
      decreases fuel, 0, 0
    {
      if fuel == 0 {
        return Err(OutOfFuel);
      }
      var op := tape.GetNextFunc();
      if op.Err? {
        return Err(op.error);
      }
      if op.value != OpWhileLoop {
        return Err(IllTyped);
      }
      r := WhileLoop(fuel - 1);
    }

    method Exec(fuel: nat, op: Opcode) returns (r: Result<Value>)
      modifies this, tape
      ensures Yields(r, Semantics.Exec(fp, tape.code, fuel, op, old(State())), State())
      decreases fuel, 4, 0
    {
      match op
      case OpTr => r := Ok(Value.Boolean(true));
      case OpFl => r := Ok(Value.Boolean(false));
      case OpFloat =>
        var x := tape.GetNextFloat();
        r := if x.Err? then Err(x.error) else Ok(Value.Float(x.value));
      case OpVar => r := Var();
      case OpLocalVar => r := Var();
      case OpAssign => r := Assign(fuel);
      case OpLocalAssign => r := Assign(fuel);
      case OpNative(o) => r := Native(fuel, o);
      case OpBlock => r := Block(fuel);
      case OpBlockChecked => r := BlockChecked(fuel);
      case OpConditional => r := Conditional(fuel);
      case OpWhileLoop => r := Err(IllTyped);
    }

    /** `operations::var` and the copy local to `compile_expr`. */
    method Var() returns (r: Result<Value>)
      modifies tape
      ensures Yields(r, ExecVar(tape.code, old(State())), State())
    {
      var idx := tape.GetNextIndex();
      if idx.Err? {
        return Err(idx.error);
      }
      if idx.value < |globals| {
        r := Ok(globals[idx.value]);
      } else {
        r := Err(IndexOutOfBounds);
      }
    }

    /** `operations::assign` and the copy local to `compile_expr`. */
    method Assign(fuel: nat) returns (r: Result<Value>)
      modifies this, tape
      ensures Yields(r, ExecAssign(fp, tape.code, fuel, old(State())), State())
      decreases fuel, 3, 0
    {
      var idx := tape.GetNextIndex();
      if idx.Err? {
        return Err(idx.error);
      }
      var v := Dispatch(fuel);
      if v.Err? {
        return Err(v.error);
      }
      if idx.value < |globals| {
        globals := globals[idx.value := v.value];
        r := Ok(Nil);
      } else {
        r := Err(IndexOutOfBounds);
      }
    }

    /** `native_op_*`: both operands from the tape, left first. */
    method Native(fuel: nat, op: Operator) returns (r: Result<Value>)
      modifies this, tape
      ensures Yields(r, ExecNative(fp, tape.code, fuel, op, old(State())), State())
      decreases fuel, 3, 0
    {
      var l := Dispatch(fuel);
      if l.Err? {
        return Err(l.error);
      }
      var rv := Dispatch(fuel);
      if rv.Err? {
        return Err(rv.error);
      }
      r := Apply(fp, op, l.value, rv.value);
    }

    /** `flow::block`. */
    method Block(fuel: nat) returns (r: Result<Value>)
      modifies this, tape
      ensures Yields(r, Semantics.Exec(fp, tape.code, fuel, OpBlock, old(State())), State())
      decreases fuel, 3, 0
    {
      var end := tape.GetNextIndex();
      if end.Err? {
        return Err(end.error);
      }
      ghost var spec := BlockLoop(fp, tape.code, fuel, end.value, State());
      var f: nat := fuel;
      while tape.offset < end.value
        invariant f <= fuel
        invariant BlockLoop(fp, tape.code, f, end.value, State()) == spec
        decreases f
      {
        if f == 0 {
          return Err(OutOfFuel);
        }
        var v := Dispatch(f);
        if v.Err? {
          return Err(v.error);
        }
        f := f - 1;
      }
      r := Ok(Nil);
    }

    /** `loop_body!(ctx, end)`. */
    method HintCheck(fuel: nat, end: nat) returns (r: Result<Check>)
      modifies this, tape
      ensures Yields(r, Semantics.HintCheck(fp, tape.code, fuel, end, old(State())), State())
      decreases fuel, 1, 0
    {
      var w := tape.Read();
      if w.Err? {
        return Err(w.error);
      }
      if !IsHintWord(w.value) {
        return Ok(Proceed);
      }
      tape.Skip(1);
      var hint := AsInt(w.value).value;
      if hint == ReturnHint {
        var v := Dispatch(fuel);
        if v.Err? {
          return Err(v.error);
        }
        tape.MoveTo(end);
        r := Ok(Exit(v.value));
      } else if hint == WhileHint {
        var o := DispatchOpt(fuel);
        if o.Err? {
          return Err(o.error);
        }
        if o.value.Some? {
          tape.MoveTo(end);
          r := Ok(Exit(o.value.value));
        } else {
          r := Ok(Again);
        }
      } else {
        r := Err(InvalidHint(hint));
      }
    }

    /** `flow::block_checked`. */
    method BlockChecked(fuel: nat) returns (r: Result<Value>)
      modifies this, tape
      ensures Yields(r, Semantics.Exec(fp, tape.code, fuel, OpBlockChecked, old(State())), State())
      decreases fuel, 3, 0
    {
      var end := tape.GetNextIndex();
      if end.Err? {
        return Err(end.error);
      }
      ghost var spec := CheckedLoop(fp, tape.code, fuel, end.value, State());
      var f: nat := fuel;
      while tape.offset < end.value
        invariant f <= fuel
        invariant CheckedLoop(fp, tape.code, f, end.value, State()) == spec
        decreases f
      {
        if f == 0 {
          return Err(OutOfFuel);
        }
        var check := HintCheck(f, end.value);
        if check.Err? {
          return Err(check.error);
        }
        if check.value.Exit? {
          return Ok(check.value.value);
        }
        if check.value.Proceed? {
          var v := Dispatch(f);
          if v.Err? {
            return Err(v.error);
          }
        }
        f := f - 1;
      }
      r := Ok(Nil);
    }

    /** `flow::while_loop`. */
    method WhileLoop(fuel: nat) returns (r: Result<Option<Value>>)
      modifies this, tape
      ensures Yields(r, ExecWhile(fp, tape.code, fuel, old(State())), State())
      decreases fuel, 3, 0
    {
      var end := tape.GetNextIndex();
      if end.Err? {
        return Err(end.error);
      }
      var saved := tape.Save();
      ghost var spec := WhileIter(fp, tape.code, fuel, end.value, saved, State());
      var f: nat := fuel;
      while true
        invariant f <= fuel
        invariant saved.offset <= tape.offset
        invariant WhileIter(fp, tape.code, f, end.value, saved, State()) == spec
        decreases f
      {
        if f == 0 {
          return Err(OutOfFuel);
        }
        var c := Dispatch(f);
        if c.Err? {
          return Err(c.error);
        }
        if !Truthy(c.value) {
          tape.Skip(end.value);
          return Ok(None);
        }
        var check := HintCheck(f, end.value);
        if check.Err? {
          return Err(check.error);
        }
        if check.value.Exit? {
          return Ok(Some(check.value.value));
        }
        if check.value.Proceed? {
          var v := Dispatch(f);
          if v.Err? {
            return Err(v.error);
          }
          tape.Restore(saved);
        }
        f := f - 1;
      }
    }

    /** `flow::conditional`. */
    method Conditional(fuel: nat) returns (r: Result<Value>)
      modifies this, tape
      ensures Yields(r, Semantics.Exec(fp, tape.code, fuel, OpConditional, old(State())), State())
      decreases fuel, 3, 0
    {
      var amount := tape.GetNextIndex();
      if amount.Err? {
        return Err(amount.error);
      }
      var endJmp := tape.GetNextIndex();
      if endJmp.Err? {
        return Err(endJmp.error);
      }
      ghost var spec := CondLoop(fp, tape.code, fuel, amount.value, endJmp.value, State());
      var k := amount.value;
      while k > 0
        invariant CondLoop(fp, tape.code, fuel, k, endJmp.value, State()) == spec
        decreases k
      {
        var ifFalse := tape.GetNextIndex();
        if ifFalse.Err? {
          return Err(ifFalse.error);
        }
        var c := Dispatch(fuel);
        if c.Err? {
          return Err(c.error);
        }
        if Truthy(c.value) {
          var v := Dispatch(fuel);
          if v.Err? {
            return Err(v.error);
          }
          tape.MoveTo(endJmp.value);
          return Ok(v.value);
        }
        tape.MoveTo(ifFalse.value);
        k := k - 1;
      }
      r := Dispatch(fuel);
    }
  }
}
