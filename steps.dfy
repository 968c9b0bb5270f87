/**
 * One dispatch of implementations.rs at a time: what each dispatch function does from a cursor
 * whose pointer stands at `p` and whose `offset` counter reads `o`, and the three outcomes of the
 * hint check `loop_body!`. Longer runs are chained from these.
 */
module Steps {
  import opened Wrappers
  import opened Values
  import opened Ast
  import opened Words
  import opened TapeCursor
  import opened Semantics

  /** The pointer and the offset can both read `k` more words. */
  predicate Readable(code: Code, p: nat, o: nat, k: nat) {
    o + k <= code.size && p + k <= |code.words|
  }

  /** `tr`/`fl`: the literal, one word further on. */
  lemma BoolRuns(fp: FloatOps, code: Code, fuel: nat, p: nat, o: nat, g: seq<Value>, b: bool)
    requires fuel >= 1 && Readable(code, p, o, 1) && code.words[p] == Op(if b then OpTr else OpFl)
    ensures Dispatch(fp, code, fuel, Machine(Cursor(p, o), g)) == Ok((Value.Boolean(b), Machine(Cursor(p + 1, o + 1), g)))
  {
  }

  /** `float`: the bits of the next word, two words further on. */
  lemma FloatRuns(fp: FloatOps, code: Code, fuel: nat, p: nat, o: nat, g: seq<Value>, x: Num)
    requires fuel >= 1 && Readable(code, p, o, 2) && code.words[p] == Op(OpFloat) && code.words[p + 1] == FloatBits(x)
    ensures Dispatch(fp, code, fuel, Machine(Cursor(p, o), g)) == Ok((Value.Float(x), Machine(Cursor(p + 2, o + 2), g)))
  {
    assert NextNum(code, Cursor(p + 1, o + 1)) == Ok((x, Cursor(p + 2, o + 2)));
  }

  /** `var`: the global in the slot the next word names. */
  lemma VarRuns(fp: FloatOps, code: Code, fuel: nat, p: nat, o: nat, g: seq<Value>, idx: nat)
    requires fuel >= 1 && Readable(code, p, o, 2) && code.words[p] == Op(OpLocalVar) && code.words[p + 1] == Slot(idx)
    requires idx < |g|
    ensures Dispatch(fp, code, fuel, Machine(Cursor(p, o), g)) == Ok((g[idx], Machine(Cursor(p + 2, o + 2), g)))
  {
    assert MIndex(code, Machine(Cursor(p + 1, o + 1), g)) == Ok((idx, Machine(Cursor(p + 2, o + 2), g)));
  }

  /** `assign`: the slot word, then the value's run, then the store into that slot. */
  lemma AssignRuns(fp: FloatOps, code: Code, fuel: nat, p: nat, o: nat, g: seq<Value>, idx: nat,
                   v: Value, m: Machine)
    requires fuel >= 2 && Readable(code, p, o, 2) && code.words[p] == Op(OpLocalAssign) && code.words[p + 1] == Slot(idx)
    requires Dispatch(fp, code, fuel - 1, Machine(Cursor(p + 2, o + 2), g)) == Ok((v, m)) && idx < |m.globals|
    ensures Dispatch(fp, code, fuel, Machine(Cursor(p, o), g)) == Ok((Nil, m.(globals := m.globals[idx := v])))
  {
    assert MIndex(code, Machine(Cursor(p + 1, o + 1), g)) == Ok((idx, Machine(Cursor(p + 2, o + 2), g)));
    assert ExecAssign(fp, code, fuel - 1, Machine(Cursor(p + 1, o + 1), g)) == Ok((Nil, m.(globals := m.globals[idx := v])));
  }

  /** An operator: the left operand's run, then the right one's, then `Apply`. */
  lemma NativeRuns(fp: FloatOps, code: Code, fuel: nat, p: nat, o: nat, g: seq<Value>, op: Operator,
                   l: Value, m1: Machine, r: Value, m2: Machine, v: Value)
    requires fuel >= 2 && Readable(code, p, o, 1) && code.words[p] == Op(OpNative(op))
    requires Dispatch(fp, code, fuel - 1, Machine(Cursor(p + 1, o + 1), g)) == Ok((l, m1))
    requires Dispatch(fp, code, fuel - 1, m1) == Ok((r, m2)) && Apply(fp, op, l, r) == Ok(v)
    ensures Dispatch(fp, code, fuel, Machine(Cursor(p, o), g)) == Ok((v, m2))
  {
    assert ExecNative(fp, code, fuel - 1, op, Machine(Cursor(p + 1, o + 1), g)) == Ok((v, m2));
  }

  /** `block` / `block_checked`: the end offset, then the loop up to it. */
  lemma BlockRuns(fp: FloatOps, code: Code, fuel: nat, p: nat, o: nat, g: seq<Value>, end: nat, checked: bool)
    requires fuel >= 1 && Readable(code, p, o, 2) && code.words[p + 1] == Offset(end)
    requires code.words[p] == Op(if checked then OpBlockChecked else OpBlock)
    ensures Dispatch(fp, code, fuel, Machine(Cursor(p, o), g))
         == if checked then CheckedLoop(fp, code, fuel - 1, end, Machine(Cursor(p + 2, o + 2), g))
            else BlockLoop(fp, code, fuel - 1, end, Machine(Cursor(p + 2, o + 2), g))
  {
    assert MIndex(code, Machine(Cursor(p + 1, o + 1), g)) == Ok((end, Machine(Cursor(p + 2, o + 2), g)));
  }

  /** `conditional`: the branch count and the end jump, then the branch loop. */
  lemma ConditionalOpens(fp: FloatOps, code: Code, fuel: nat, p: nat, o: nat, g: seq<Value>, k: nat, endJmp: nat)
    requires fuel >= 1 && Readable(code, p, o, 3) && code.words[p] == Op(OpConditional)
    requires code.words[p + 1] == Offset(k) && code.words[p + 2] == Offset(endJmp)
    ensures Dispatch(fp, code, fuel, Machine(Cursor(p, o), g))
         == CondLoop(fp, code, fuel - 1, k, endJmp, Machine(Cursor(p + 3, o + 3), g))
  {
    assert MIndex(code, Machine(Cursor(p + 1, o + 1), g)) == Ok((k, Machine(Cursor(p + 2, o + 2), g)));
    assert MIndex(code, Machine(Cursor(p + 2, o + 2), g)) == Ok((endJmp, Machine(Cursor(p + 3, o + 3), g)));
  }

  /** `loop_body!` on a dispatch word: no hint, the statement runs as usual. */
  lemma NoHint(fp: FloatOps, code: Code, fuel: nat, end: nat, p: nat, o: nat, g: seq<Value>)
    requires p < |code.words| && code.words[p].Op?
    ensures HintCheck(fp, code, fuel, end, Machine(Cursor(p, o), g)) == Ok((Proceed, Machine(Cursor(p, o), g)))
  {
  }

  /** `loop_body!` on the Return hint: the expression after it is the enclosing function's value, the pointer moved to `end`. */
  lemma ReturnHintExits(fp: FloatOps, code: Code, fuel: nat, end: nat, p: nat, o: nat, g: seq<Value>,
                        v: Value, m: Machine)
    requires p < |code.words| && code.words[p] == Hint(ReturnHint)
    requires Dispatch(fp, code, fuel, Machine(Cursor(p + 1, o + 1), g)) == Ok((v, m))
    ensures HintCheck(fp, code, fuel, end, Machine(Cursor(p, o), g)) == Ok((Exit(v), m.(cur := Moved(m.cur, end))))
  {
  }

  /**
   * `loop_body!` on the While hint: `while_loop` runs from the words after the hint; a value it
   * returns is the enclosing function's value with the pointer moved to `end`, None means the
   * enclosing loop goes round again from wherever `while_loop` left the cursor, and a failure
   * of the loop is the check's failure.
   */
  lemma WhileHintRuns(fp: FloatOps, code: Code, fuel: nat, end: nat, p: nat, o: nat, g: seq<Value>, wend: nat)
    requires fuel >= 1 && Readable(code, p, o, 3)
    requires code.words[p] == Hint(WhileHint) && code.words[p + 1] == Op(OpWhileLoop) && code.words[p + 2] == Offset(wend)
    ensures var w := WhileIter(fp, code, fuel - 1, wend, Cursor(p + 3, o + 3), Machine(Cursor(p + 3, o + 3), g));
            HintCheck(fp, code, fuel, end, Machine(Cursor(p, o), g))
              == if w.Err? then Err(w.error)
                 else if w.value.0.Some? then Ok((Exit(w.value.0.value), w.value.1.(cur := Moved(w.value.1.cur, end))))
                 else Ok((Again, w.value.1))
  {
    assert MIndex(code, Machine(Cursor(p + 2, o + 2), g)) == Ok((wend, Machine(Cursor(p + 3, o + 3), g)));
    assert DispatchOpt(fp, code, fuel, Machine(Cursor(p + 1, o + 1), g))
        == WhileIter(fp, code, fuel - 1, wend, Cursor(p + 3, o + 3), Machine(Cursor(p + 3, o + 3), g));
  }

  /** A `while_loop` round whose condition is falsy: None, and `skip(end)` from just after the condition. */
  lemma WhileFalsy(fp: FloatOps, code: Code, fuel: nat, end: nat, saved: Cursor, m: Machine, c: Value, m1: Machine)
    requires fuel >= 1 && saved.offset <= m.cur.offset
    requires Dispatch(fp, code, fuel, m) == Ok((c, m1)) && !Truthy(c)
    ensures WhileIter(fp, code, fuel, end, saved, m) == Ok((None, m1.(cur := Skipped(m1.cur, end))))
  {
  }

  /**
   * A `while_loop` round whose condition is truthy and whose hint check lets the body run: the
   * body's dispatch, then `restore(saved)`, and the loop starts again with one unit less fuel.
   */
  lemma WhileTruthyRound(fp: FloatOps, code: Code, fuel: nat, end: nat, saved: Cursor, m: Machine,
                         c: Value, m1: Machine, b: Value, m3: Machine)
    requires fuel >= 1 && saved.offset <= m.cur.offset
    requires Dispatch(fp, code, fuel, m) == Ok((c, m1)) && Truthy(c)
    requires HintCheck(fp, code, fuel, end, m1) == Ok((Proceed, m1))
    requires Dispatch(fp, code, fuel, m1) == Ok((b, m3))
    ensures WhileIter(fp, code, fuel, end, saved, m) == WhileIter(fp, code, fuel - 1, end, saved, m3.(cur := saved))
  {
  }

  /**
   * A While statement in a checked block whose condition is falsy on entry: `while_loop` ends
   * with `skip(wend)` from just after the condition, which adds the loop's absolute end to both
   * counters, and when that leaves the offset at or past the block's end the block yields Nil,
   * whatever statements follow.
   */
  lemma FalsyWhileEndsBlock(fp: FloatOps, code: Code, fuel: nat, end: nat, p: nat, o: nat, g: seq<Value>,
                            wend: nat, c: Value, m1: Machine)
    requires fuel >= 2 && o < end && Readable(code, p, o, 3)
    requires code.words[p] == Hint(WhileHint) && code.words[p + 1] == Op(OpWhileLoop) && code.words[p + 2] == Offset(wend)
    requires Dispatch(fp, code, fuel - 1, Machine(Cursor(p + 3, o + 3), g)) == Ok((c, m1)) && !Truthy(c)
    requires m1.cur.offset + wend >= end
    ensures CheckedLoop(fp, code, fuel, end, Machine(Cursor(p, o), g))
         == Ok((Nil, m1.(cur := Cursor(m1.cur.pos + wend, m1.cur.offset + wend))))
  {
    WhileHintRuns(fp, code, fuel, end, p, o, g, wend);
    WhileFalsy(fp, code, fuel - 1, wend, Cursor(p + 3, o + 3), Machine(Cursor(p + 3, o + 3), g), c, m1);
  }
}
