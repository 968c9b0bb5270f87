/**
 * What the tape machine does, as written, on the programs of the two tests in imsta.rs and on
 * the smallest program with a Return: the hint protocol of `loop_body!` on compiled code.
 * Each program is compiled by `Compile`, its tape spelled out, then run by `Execute`.
 */
module Programs {
  import opened Wrappers
  import opened Values
  import opened Ast
  import opened Words
  import opened TapeCursor
  import opened Semantics
  import opened Compiler
  import opened Interning
  import opened Steps

  /** The program of the `nested` test, with its two names and two constants as parameters. */
  function NestedProgram(t1: string, t2: string, x: Num, y: Num): Expr {
    Block([Assign(Global(t1), Block([Return(Expr.Float(x))])),
           Assign(Global(t2), Block([While(Expr.Boolean(true), Return(Expr.Float(y)))]))])
  }

  /** Its tape: the first inner block is empty, because its Return is not compiled. */
  function NestedTape(y: Num): seq<Word> {
    [Op(OpBlock), Offset(17),
     Op(OpLocalAssign), Slot(0), Op(OpBlockChecked), Offset(6),
     Op(OpLocalAssign), Slot(1), Op(OpBlockChecked), Offset(17),
     Hint(WhileHint), Op(OpWhileLoop), Offset(17), Op(OpTr), Hint(ReturnHint), Op(OpFloat), FloatBits(y)]
  }

  /** The `nested` program compiles to `NestedTape`, with the names in order of appearance. */
  lemma NestedCompiles(t1: string, t2: string, x: Num, y: Num)
    requires t1 != t2
    ensures Compile(NestedProgram(t1, t2, x, y), CState([], [])) == CState(NestedTape(y), [t1, t2])
  {
    var p := NestedProgram(t1, t2, x, y);
    CompileIsLayout(p, CState([], []));
    NestedLayout(t1, t2, x, y);
  }

  lemma NestedLayout(t1: string, t2: string, x: Num, y: Num)
    requires t1 != t2
    ensures Layout(NestedProgram(t1, t2, x, y), 0, []) == (NestedTape(y), [t1, t2])
  {
    var p := NestedProgram(t1, t2, x, y);
    var b1 := Block([Return(Expr.Float(x))]);
    var b2 := Block([While(Expr.Boolean(true), Return(Expr.Float(y)))]);
    assert !HasCheckedStatement(p.statements);
    ReturnBlockLayout(x, 4, [t1]);
    LoopBlockLayout(y, 8, [t1, t2]);
    assert Intern([], t1) == (0, [t1]) by { assert [] + [t1] == [t1]; }
    assert Intern([t1], t2) == (1, [t1, t2]) by { assert t2 !in [t1]; assert [t1] + [t2] == [t1, t2]; }
    var w2 := Layout(b2, 8, [t1, t2]).0;
    assert LayoutStatements(p, 2, 17, [t1, t2]) == ([], [t1, t2]);
    assert LayoutStatements(p, 1, 6, [t1]) == ([Op(OpLocalAssign), Slot(1)] + w2, [t1, t2]) by {
      assert [Op(OpLocalAssign), Slot(1)] + w2 + [] == [Op(OpLocalAssign), Slot(1)] + w2;
    }
    var tail := [Op(OpLocalAssign), Slot(1)] + w2;
    assert Layout(p.statements[0], 2, []) == ([Op(OpLocalAssign), Slot(0), Op(OpBlockChecked), Offset(6)], [t1]) by {
      assert [Op(OpLocalAssign), Slot(0)] + [Op(OpBlockChecked), Offset(6)] == [Op(OpLocalAssign), Slot(0), Op(OpBlockChecked), Offset(6)];
    }
    assert LayoutStatements(p, 0, 2, []) == ([Op(OpLocalAssign), Slot(0), Op(OpBlockChecked), Offset(6)] + tail, [t1, t2]);
    assert [Op(OpBlock), Offset(17)] + ([Op(OpLocalAssign), Slot(0), Op(OpBlockChecked), Offset(6)] + tail) == NestedTape(y);
  }

  /** `{ return x }` is laid out as an empty checked block. */
  lemma ReturnBlockLayout(x: Num, base: nat, g: seq<string>)
    ensures Layout(Block([Return(Expr.Float(x))]), base, g) == ([Op(OpBlockChecked), Offset(base + 2)], g)
  {
    var b := Block([Return(Expr.Float(x))]);
    assert HasCheckedStatement(b.statements) by { assert b.statements[0].Return?; }
    assert LayoutStatements(b, 0, base + 2, g) == ([], g);
    assert [Op(OpBlockChecked), Offset(base + 2)] + [] == [Op(OpBlockChecked), Offset(base + 2)];
  }

  /** `{ while true { return y } }`: the checked block, the loop header, `tr`, the Return hint and `y`. */
  lemma LoopBlockLayout(y: Num, base: nat, g: seq<string>)
    ensures Layout(Block([While(Expr.Boolean(true), Return(Expr.Float(y)))]), base, g)
         == ([Op(OpBlockChecked), Offset(base + 9), Hint(WhileHint), Op(OpWhileLoop), Offset(base + 9),
              Op(OpTr), Hint(ReturnHint), Op(OpFloat), FloatBits(y)], g)
  {
    var w := While(Expr.Boolean(true), Return(Expr.Float(y)));
    var b := Block([w]);
    assert HasCheckedStatement(b.statements) by { assert b.statements[0].While?; }
    var lw := [Hint(WhileHint), Op(OpWhileLoop), Offset(base + 9), Op(OpTr), Hint(ReturnHint), Op(OpFloat), FloatBits(y)];
    assert Layout(Return(Expr.Float(y)), base + 6, g) == ([Hint(ReturnHint), Op(OpFloat), FloatBits(y)], g) by {
      assert [Hint(ReturnHint)] + [Op(OpFloat), FloatBits(y)] == [Hint(ReturnHint), Op(OpFloat), FloatBits(y)];
    }
    assert Layout(w, base + 2, g) == (lw, g) by {
      assert [Hint(WhileHint), Op(OpWhileLoop), Offset(base + 9)] + [Op(OpTr)] + [Hint(ReturnHint), Op(OpFloat), FloatBits(y)] == lw;
    }
    assert LayoutStatements(b, 1, base + 9, g) == ([], g);
    assert LayoutStatements(b, 0, base + 2, g) == (lw, g) by { assert lw + [] == lw; }
    assert [Op(OpBlockChecked), Offset(base + 9)] + lw
        == [Op(OpBlockChecked), Offset(base + 9), Hint(WhileHint), Op(OpWhileLoop), Offset(base + 9),
            Op(OpTr), Hint(ReturnHint), Op(OpFloat), FloatBits(y)];
  }

  /** The words of `NestedTape` one by one, for stepping through its run. */
  ghost predicate IsNested(code: Code, y: Num) {
    && code.size == 17 && |code.words| == 17
    && code.words[0] == Op(OpBlock) && code.words[1] == Offset(17)
    && code.words[2] == Op(OpLocalAssign) && code.words[3] == Slot(0)
    && code.words[4] == Op(OpBlockChecked) && code.words[5] == Offset(6)
    && code.words[6] == Op(OpLocalAssign) && code.words[7] == Slot(1)
    && code.words[8] == Op(OpBlockChecked) && code.words[9] == Offset(17)
    && code.words[10] == Hint(WhileHint) && code.words[11] == Op(OpWhileLoop) && code.words[12] == Offset(17)
    && code.words[13] == Op(OpTr) && code.words[14] == Hint(ReturnHint)
    && code.words[15] == Op(OpFloat) && code.words[16] == FloatBits(y)
  }

  /**
   * The `nested` test as written: `test` receives Nil, because its block's Return was dropped;
   * `test2` receives `y`, through the While hint, the loop's Return hint and `move_to(end)`;
   * the program itself returns Nil with the cursor synced at the end of the tape.
   */
  lemma NestedRun(fp: FloatOps, t1: string, t2: string, x: Num, y: Num, fuel: nat)
    requires t1 != t2 && fuel >= 6
    ensures var c := Compile(NestedProgram(t1, t2, x, y), CState([], []));
            Execute(fp, Code(c.tape, |c.tape|), |c.globals|, fuel)
              == Ok((Nil, Machine(Cursor(17, 17), [Nil, Value.Float(y)])))
  {
    NestedCompiles(t1, t2, x, y);
    NestedWords(y);
    NestedRuns(fp, Code(NestedTape(y), 17), y, fuel);
  }

  /** `NestedTape` holds the words `IsNested` lists. */
  lemma NestedWords(y: Num)
    ensures IsNested(Code(NestedTape(y), 17), y)
  {
  }

  /** The `nested` run over any code holding those words. */
  lemma NestedRuns(fp: FloatOps, code: Code, y: Num, fuel: nat)
    requires IsNested(code, y) && fuel >= 6
    ensures Execute(fp, code, 2, fuel) == Ok((Nil, Machine(Cursor(17, 17), [Nil, Value.Float(y)])))
  {
    var g := Start(2).globals;
    var g2 := [Nil, Value.Float(y)];
    BlockRuns(fp, code, fuel, 0, 0, g, 17, false);
    FirstAssignRuns(fp, code, y, fuel - 1, g);
    SecondAssignRuns(fp, code, y, fuel - 2, g[0 := Nil]);
    assert g[0 := Nil][1 := Value.Float(y)] == g2;
    assert BlockLoop(fp, code, fuel - 3, 17, Machine(Cursor(17, 17), g2)) == Ok((Nil, Machine(Cursor(17, 17), g2)));
    assert BlockLoop(fp, code, fuel - 2, 17, Machine(Cursor(6, 6), g[0 := Nil])) == Ok((Nil, Machine(Cursor(17, 17), g2)));
  }

  /** `test = { }`: the empty checked block ends at once and its Nil is stored in slot 0. */
  lemma FirstAssignRuns(fp: FloatOps, code: Code, y: Num, fuel: nat, g: seq<Value>)
    requires IsNested(code, y) && fuel >= 2 && |g| == 2
    ensures Dispatch(fp, code, fuel, Machine(Cursor(2, 2), g)) == Ok((Nil, Machine(Cursor(6, 6), g[0 := Nil])))
  {
    BlockRuns(fp, code, fuel - 1, 4, 4, g, 6, true);
    AssignRuns(fp, code, fuel, 2, 2, g, 0, Nil, Machine(Cursor(6, 6), g));
  }

  /** `test2 = { while true { return y } }`: the block's value is `y`, stored in slot 1. */
  lemma SecondAssignRuns(fp: FloatOps, code: Code, y: Num, fuel: nat, g: seq<Value>)
    requires IsNested(code, y) && fuel >= 4 && |g| == 2
    ensures Dispatch(fp, code, fuel, Machine(Cursor(6, 6), g)) == Ok((Nil, Machine(Cursor(17, 17), g[1 := Value.Float(y)])))
  {
    BlockRuns(fp, code, fuel - 1, 8, 8, g, 17, true);
    LoopBlockRuns(fp, code, y, fuel - 2, g);
    AssignRuns(fp, code, fuel, 6, 6, g, 1, Value.Float(y), Machine(Cursor(17, 17), g));
  }

  /** The checked block's only statement carries the While hint: the loop's exit value ends the block. */
  lemma LoopBlockRuns(fp: FloatOps, code: Code, y: Num, fuel: nat, g: seq<Value>)
    requires IsNested(code, y) && fuel >= 2
    ensures CheckedLoop(fp, code, fuel, 17, Machine(Cursor(10, 10), g)) == Ok((Value.Float(y), Machine(Cursor(17, 17), g)))
  {
    LoopReturns(fp, code, y, fuel - 1, g);
    WhileHintRuns(fp, code, fuel, 17, 10, 10, g, 17);
  }

  /** `while true { return y }`: `tr` is truthy, the Return hint yields `y` and moves to the loop's end. */
  lemma LoopReturns(fp: FloatOps, code: Code, y: Num, fuel: nat, g: seq<Value>)
    requires IsNested(code, y) && fuel >= 1
    ensures WhileIter(fp, code, fuel, 17, Cursor(13, 13), Machine(Cursor(13, 13), g))
         == Ok((Some(Value.Float(y)), Machine(Cursor(17, 17), g)))
  {
    BoolRuns(fp, code, fuel, 13, 13, g, true);
    FloatRuns(fp, code, fuel, 15, 15, g, y);
    ReturnHintExits(fp, code, fuel, 17, 14, 14, g, Value.Float(y), Machine(Cursor(17, 17), g));
  }

  /** `{ x = n; return x }`: a Return after a store. */
  function ReturnProgram(x: string, n: Num): Expr {
    Block([Assign(Global(x), Expr.Float(n)), Return(Var(Global(x)))])
  }

  /** Its tape: a checked block holding only the store, because the Return is not compiled. */
  function ReturnTape(n: Num): seq<Word> {
    [Op(OpBlockChecked), Offset(6), Op(OpLocalAssign), Slot(0), Op(OpFloat), FloatBits(n)]
  }

  lemma ReturnCompiles(x: string, n: Num)
    ensures Compile(ReturnProgram(x, n), CState([], [])) == CState(ReturnTape(n), [x])
  {
    var p := ReturnProgram(x, n);
    CompileIsLayout(p, CState([], []));
    assert HasCheckedStatement(p.statements) by { assert p.statements[1].Return?; }
    assert Intern([], x) == (0, [x]) by { assert [] + [x] == [x]; }
    assert Layout(p.statements[0], 2, []) == ([Op(OpLocalAssign), Slot(0), Op(OpFloat), FloatBits(n)], [x]) by {
      assert [Op(OpLocalAssign), Slot(0)] + [Op(OpFloat), FloatBits(n)] == [Op(OpLocalAssign), Slot(0), Op(OpFloat), FloatBits(n)];
    }
    assert LayoutStatements(p, 1, 6, [x]) == ([], [x]);
    assert LayoutStatements(p, 0, 2, []) == ([Op(OpLocalAssign), Slot(0), Op(OpFloat), FloatBits(n)], [x]) by {
      assert [Op(OpLocalAssign), Slot(0), Op(OpFloat), FloatBits(n)] + [] == [Op(OpLocalAssign), Slot(0), Op(OpFloat), FloatBits(n)];
    }
    assert [Op(OpBlockChecked), Offset(6)] + [Op(OpLocalAssign), Slot(0), Op(OpFloat), FloatBits(n)] == ReturnTape(n);
  }

  /**
   * `{ x = n; return x }` as written returns Nil, not `n`: the Return was never compiled, so the
   * checked block runs the store and reaches its end. The store itself happens.
   */
  lemma ReturnRun(fp: FloatOps, x: string, n: Num, fuel: nat)
    requires fuel >= 3
    ensures var c := Compile(ReturnProgram(x, n), CState([], []));
            Execute(fp, Code(c.tape, |c.tape|), |c.globals|, fuel) == Ok((Nil, Machine(Cursor(6, 6), [Value.Float(n)])))
  {
    ReturnCompiles(x, n);
    var code := Code(ReturnTape(n), 6);
    var g := Start(1).globals;
    BlockRuns(fp, code, fuel, 0, 0, g, 6, true);
    NoHint(fp, code, fuel - 1, 6, 2, 2, g);
    FloatRuns(fp, code, fuel - 2, 4, 4, g, n);
    AssignRuns(fp, code, fuel - 1, 2, 2, g, 0, Value.Float(n), Machine(Cursor(6, 6), g));
    assert g[0 := Value.Float(n)] == [Value.Float(n)];
    var m6 := Machine(Cursor(6, 6), [Value.Float(n)]);
    assert Dispatch(fp, code, fuel - 1, Machine(Cursor(2, 2), g)) == Ok((Nil, m6));
  }

  /** The program of the `tape_test` test, with its name and its starting value as parameters. */
  function TapeProgram(x: string, n: Num): Expr {
    Block([Assign(Global(x), Expr.Float(n)),
           While(BinaryOp(Var(Global(x)), Gt, Expr.Float(Zero)),
                 Assign(Global(x), BinaryOp(Var(Global(x)), Sub, Expr.Float(One)))),
           Return(Var(Global(x)))])
  }

  /** Its tape: the store, the loop with its condition and body, and no Return. */
  function TapeTape(n: Num): seq<Word> {
    [Op(OpBlockChecked), Offset(21),
     Op(OpLocalAssign), Slot(0), Op(OpFloat), FloatBits(n),
     Hint(WhileHint), Op(OpWhileLoop), Offset(21),
     Op(OpNative(Gt)), Op(OpLocalVar), Slot(0), Op(OpFloat), FloatBits(Zero),
     Op(OpLocalAssign), Slot(0), Op(OpNative(Sub)), Op(OpLocalVar), Slot(0), Op(OpFloat), FloatBits(One)]
  }

  lemma TapeCompiles(x: string, n: Num)
    ensures Compile(TapeProgram(x, n), CState([], [])) == CState(TapeTape(n), [x])
  {
    CompileIsLayout(TapeProgram(x, n), CState([], []));
    TapeLayout(x, n);
  }

  lemma TapeLayout(x: string, n: Num)
    ensures Layout(TapeProgram(x, n), 0, []) == (TapeTape(n), [x])
  {
    var p := TapeProgram(x, n);
    assert HasCheckedStatement(p.statements) by { assert p.statements[1].While?; }
    assert Intern([], x) == (0, [x]) by { assert [] + [x] == [x]; }
    var store := [Op(OpLocalAssign), Slot(0), Op(OpFloat), FloatBits(n)];
    assert Layout(p.statements[0], 2, []) == (store, [x]) by {
      assert [Op(OpLocalAssign), Slot(0)] + [Op(OpFloat), FloatBits(n)] == store;
    }
    LoopLayout(x);
    var loop := TapeTape(n)[6..];
    assert LayoutStatements(p, 2, 21, [x]) == ([], [x]);
    assert LayoutStatements(p, 1, 6, [x]) == (loop, [x]) by { assert loop + [] == loop; }
    assert LayoutStatements(p, 0, 2, []) == (store + loop, [x]);
    assert [Op(OpBlockChecked), Offset(21)] + (store + loop) == TapeTape(n);
  }

  /** `while x > 0 { x = x - 1 }` at offset 6, with `x` in slot 0. */
  lemma LoopLayout(x: string)
    ensures Layout(TapeProgram(x, Zero).statements[1], 6, [x])
         == ([Hint(WhileHint), Op(OpWhileLoop), Offset(21),
              Op(OpNative(Gt)), Op(OpLocalVar), Slot(0), Op(OpFloat), FloatBits(Zero),
              Op(OpLocalAssign), Slot(0), Op(OpNative(Sub)), Op(OpLocalVar), Slot(0), Op(OpFloat), FloatBits(One)], [x])
  {
    var w := TapeProgram(x, Zero).statements[1];
    assert Intern([x], x) == (0, [x]) by { assert x in [x]; assert IndexOf([x], x) == 0; }
    var read := [Op(OpLocalVar), Slot(0)];
    assert Layout(Var(Global(x)), 10, [x]) == (read, [x]);
    assert Layout(Var(Global(x)), 17, [x]) == (read, [x]);
    var cond := [Op(OpNative(Gt))] + read + [Op(OpFloat), FloatBits(Zero)];
    var sub := [Op(OpNative(Sub))] + read + [Op(OpFloat), FloatBits(One)];
    assert Layout(w.cond, 9, [x]) == (cond, [x]);
    assert Layout(w.body.value, 16, [x]) == (sub, [x]);
    assert Layout(w.body, 14, [x]) == ([Op(OpLocalAssign), Slot(0)] + sub, [x]);
    assert [Hint(WhileHint), Op(OpWhileLoop), Offset(21)] + cond + ([Op(OpLocalAssign), Slot(0)] + sub)
        == [Hint(WhileHint), Op(OpWhileLoop), Offset(21),
            Op(OpNative(Gt)), Op(OpLocalVar), Slot(0), Op(OpFloat), FloatBits(Zero),
            Op(OpLocalAssign), Slot(0), Op(OpNative(Sub)), Op(OpLocalVar), Slot(0), Op(OpFloat), FloatBits(One)];
  }

  /** The words of the `tape_test` loop's condition, `x > 0`, at 9 to 13. */
  ghost predicate TapeCond(code: Code) {
    && code.size == 21 && |code.words| == 21
    && code.words[9] == Op(OpNative(Gt)) && code.words[10] == Op(OpLocalVar) && code.words[11] == Slot(0)
    && code.words[12] == Op(OpFloat) && code.words[13] == FloatBits(Zero)
  }

  /** The words of the `tape_test` loop's body, `x = x - 1`, at 14 to 20. */
  ghost predicate TapeBody(code: Code) {
    && code.size == 21 && |code.words| == 21
    && code.words[14] == Op(OpLocalAssign) && code.words[15] == Slot(0)
    && code.words[16] == Op(OpNative(Sub)) && code.words[17] == Op(OpLocalVar) && code.words[18] == Slot(0)
    && code.words[19] == Op(OpFloat) && code.words[20] == FloatBits(One)
  }

  /** The words of the `tape_test` tape, one index at a time. */
  ghost predicate IsTape(code: Code, n: Num) {
    && TapeCond(code) && TapeBody(code)
    && code.words[0] == Op(OpBlockChecked) && code.words[1] == Offset(21)
    && code.words[2] == Op(OpLocalAssign) && code.words[3] == Slot(0)
    && code.words[4] == Op(OpFloat) && code.words[5] == FloatBits(n)
    && code.words[6] == Hint(WhileHint) && code.words[7] == Op(OpWhileLoop) && code.words[8] == Offset(21)
  }

  /** `TapeTape` holds the words `IsTape` lists. */
  lemma TapeWords(n: Num)
    ensures IsTape(Code(TapeTape(n), 21), n)
  {
  }

  /** The condition `x > 0` from word 9, with `x` holding `v`: `0 < v`, five words further on. */
  lemma TapeCondRuns(fp: FloatOps, code: Code, fuel: nat, v: Num)
    requires TapeCond(code) && fuel >= 2
    ensures Dispatch(fp, code, fuel, Machine(Cursor(9, 9), [Value.Float(v)]))
         == Ok((Value.Boolean(fp.less(Zero, v)), Machine(Cursor(14, 14), [Value.Float(v)])))
  {
    var g := [Value.Float(v)];
    VarRuns(fp, code, fuel - 1, 10, 10, g, 0);
    FloatRuns(fp, code, fuel - 1, 12, 12, g, Zero);
    NativeRuns(fp, code, fuel, 9, 9, g, Gt, Value.Float(v), Machine(Cursor(12, 12), g),
               Value.Float(Zero), Machine(Cursor(14, 14), g), Value.Boolean(fp.less(Zero, v)));
  }

  /** The body `x = x - 1` from word 14, with `x` holding `v`: `v - 1` stored, at the block's end. */
  lemma TapeBodyRuns(fp: FloatOps, code: Code, fuel: nat, v: Num)
    requires TapeBody(code) && fuel >= 3
    ensures Dispatch(fp, code, fuel, Machine(Cursor(14, 14), [Value.Float(v)]))
         == Ok((Nil, Machine(Cursor(21, 21), [Value.Float(fp.sub(v, One))])))
  {
    var g := [Value.Float(v)];
    VarRuns(fp, code, fuel - 2, 17, 17, g, 0);
    FloatRuns(fp, code, fuel - 2, 19, 19, g, One);
    NativeRuns(fp, code, fuel - 1, 16, 16, g, Sub, Value.Float(v), Machine(Cursor(19, 19), g),
               Value.Float(One), Machine(Cursor(21, 21), g), Value.Float(fp.sub(v, One)));
    AssignRuns(fp, code, fuel, 14, 14, g, 0, Value.Float(fp.sub(v, One)), Machine(Cursor(21, 21), g));
    assert g[0 := Value.Float(fp.sub(v, One))] == [Value.Float(fp.sub(v, One))];
  }

  /** A round with `x` above zero: the body stores `x - 1` and the loop starts again from word 9. */
  lemma TapeRound(fp: FloatOps, code: Code, fuel: nat, v: Num)
    requires TapeCond(code) && TapeBody(code) && fuel >= 3 && fp.less(Zero, v)
    ensures WhileIter(fp, code, fuel, 21, Cursor(9, 9), Machine(Cursor(9, 9), [Value.Float(v)]))
         == WhileIter(fp, code, fuel - 1, 21, Cursor(9, 9), Machine(Cursor(9, 9), [Value.Float(fp.sub(v, One))]))
  {
    TapeCondRuns(fp, code, fuel, v);
    NoHint(fp, code, fuel, 21, 14, 14, [Value.Float(v)]);
    TapeBodyRuns(fp, code, fuel, v);
  }

  /** A round with `x` not above zero: None, and `skip(21)` from word 14 lands at 35. */
  lemma TapeExit(fp: FloatOps, code: Code, fuel: nat, v: Num)
    requires TapeCond(code) && fuel >= 2 && !fp.less(Zero, v)
    ensures WhileIter(fp, code, fuel, 21, Cursor(9, 9), Machine(Cursor(9, 9), [Value.Float(v)]))
         == Ok((None, Machine(Cursor(35, 35), [Value.Float(v)])))
  {
    TapeCondRuns(fp, code, fuel, v);
    WhileFalsy(fp, code, fuel, 21, Cursor(9, 9), Machine(Cursor(9, 9), [Value.Float(v)]),
               Value.Boolean(false), Machine(Cursor(14, 14), [Value.Float(v)]));
  }

  /** With one unit of fuel the condition cannot run, with two the body cannot. */
  lemma TapeStarves(fp: FloatOps, code: Code, fuel: nat, v: Num)
    requires TapeCond(code) && TapeBody(code) && (fuel == 1 || (fuel == 2 && fp.less(Zero, v)))
    ensures WhileIter(fp, code, fuel, 21, Cursor(9, 9), Machine(Cursor(9, 9), [Value.Float(v)])) == Err(OutOfFuel)
  {
    var g := [Value.Float(v)];
    if fuel == 1 {
      assert Dispatch(fp, code, 0, Machine(Cursor(10, 10), g)) == Err(OutOfFuel);
    } else {
      TapeCondRuns(fp, code, fuel, v);
      NoHint(fp, code, fuel, 21, 14, 14, g);
      TapeBodyStarves(fp, code, v);
    }
  }

  /** Two units of fuel do not reach the subtraction inside the body's store. */
  lemma TapeBodyStarves(fp: FloatOps, code: Code, v: Num)
    requires TapeBody(code)
    ensures Dispatch(fp, code, 2, Machine(Cursor(14, 14), [Value.Float(v)])) == Err(OutOfFuel)
  {
    var g := [Value.Float(v)];
    assert Dispatch(fp, code, 0, Machine(Cursor(16, 16), g)) == Err(OutOfFuel);
    assert ExecAssign(fp, code, 1, Machine(Cursor(15, 15), g)) == Err(OutOfFuel);
  }

  /**
   * `while x > 0 { x = x - 1 }` as `while_loop` runs it from word 9: whatever the fuel, it either
   * runs out of fuel or ends with None once `x` is no longer above zero, and then `skip(21)` from
   * word 14 leaves both the pointer and the offset at 35, past the tape's 21 words. With `x` not
   * above zero on entry, that is the very first round.
   */
  lemma {:induction false} TapeLoopEnds(fp: FloatOps, code: Code, fuel: nat, v: Num)
    requires TapeCond(code) && TapeBody(code)
    ensures var r := WhileIter(fp, code, fuel, 21, Cursor(9, 9), Machine(Cursor(9, 9), [Value.Float(v)]));
            && (r.Err? ==> r.error == OutOfFuel)
            && (r.Ok? ==> && r.value.0 == None && r.value.1.cur == Cursor(35, 35)
                          && |r.value.1.globals| == 1 && r.value.1.globals[0].Float?
                          && !fp.less(Zero, r.value.1.globals[0].x))
            && (fuel >= 2 && !fp.less(Zero, v) ==> r == Ok((None, Machine(Cursor(35, 35), [Value.Float(v)]))))
    decreases fuel
  {
    if fuel == 0 {
    } else if fuel >= 2 && !fp.less(Zero, v) {
      TapeExit(fp, code, fuel, v);
    } else if fuel <= 2 {
      TapeStarves(fp, code, fuel, v);
    } else {
      TapeRound(fp, code, fuel, v);
      TapeLoopEnds(fp, code, fuel - 1, fp.sub(v, One));
    }
  }

  /** The statement loop of the outer checked block, up to the While hint: `x = n` stored at word 2. */
  lemma TapeHeadRuns(fp: FloatOps, code: Code, n: Num, fuel: nat)
    requires IsTape(code, n) && fuel >= 3
    ensures Execute(fp, code, 1, fuel) == CheckedLoop(fp, code, fuel - 2, 21, Machine(Cursor(6, 6), [Value.Float(n)]))
  {
    var g := Start(1).globals;
    BlockRuns(fp, code, fuel, 0, 0, g, 21, true);
    NoHint(fp, code, fuel - 1, 21, 2, 2, g);
    FloatRuns(fp, code, fuel - 2, 4, 4, g, n);
    AssignRuns(fp, code, fuel - 1, 2, 2, g, 0, Value.Float(n), Machine(Cursor(6, 6), g));
    assert g[0 := Value.Float(n)] == [Value.Float(n)];
  }

  /**
   * How `tape_test` ends as written: out of fuel, or Nil with `x` no longer above zero and both
   * the pointer and the offset at 35.
   */
  predicate CountedDown(fp: FloatOps, r: Result<(Value, Machine)>) {
    && (r.Err? ==> r.error == OutOfFuel)
    && (r.Ok? ==> && r.value.0 == Nil && r.value.1.cur == Cursor(35, 35)
                  && |r.value.1.globals| == 1 && r.value.1.globals[0].Float?
                  && !fp.less(Zero, r.value.1.globals[0].x))
  }

  /**
   * From the While hint on: `while_loop` returns None, so `loop_body!` goes round again, and the
   * offset it left at 35 is already past the block's end 21: the block yields Nil.
   */
  lemma TapeTailRuns(fp: FloatOps, code: Code, n: Num, fuel: nat)
    requires IsTape(code, n) && fuel >= 2
    ensures var r := CheckedLoop(fp, code, fuel, 21, Machine(Cursor(6, 6), [Value.Float(n)]));
            && CountedDown(fp, r)
            && (fuel >= 3 && !fp.less(Zero, n) ==> r == Ok((Nil, Machine(Cursor(35, 35), [Value.Float(n)]))))
  {
    WhileHintRuns(fp, code, fuel, 21, 6, 6, [Value.Float(n)], 21);
    TapeLoopEnds(fp, code, fuel - 1, n);
  }

  /** `tape_test`'s tape from the start, whatever its words say `x` starts at. */
  lemma TapeRuns(fp: FloatOps, code: Code, n: Num, fuel: nat)
    requires IsTape(code, n) && fuel >= 4
    ensures var r := Execute(fp, code, 1, fuel);
            CountedDown(fp, r) && (fuel >= 5 && !fp.less(Zero, n) ==> r == Ok((Nil, Machine(Cursor(35, 35), [Value.Float(n)]))))
  {
    TapeHeadRuns(fp, code, n, fuel);
    TapeTailRuns(fp, code, n, fuel - 2);
  }

  /**
   * `tape_test` as written: whatever the starting value and the fuel, the program either runs out
   * of fuel or yields Nil, not the final value of `x` (the Return was never compiled), with `x`
   * no longer above zero and both the pointer and the offset at 35, beyond the 21-word tape.
   * Starting at or below zero, it always does so with `x` unchanged.
   */
  lemma TapeRun(fp: FloatOps, x: string, n: Num, fuel: nat)
    requires fuel >= 4
    ensures var c := Compile(TapeProgram(x, n), CState([], []));
            && c.globals == [x] && |c.tape| == 21
            && var r := Execute(fp, Code(c.tape, |c.tape|), |c.globals|, fuel);
            CountedDown(fp, r) && (fuel >= 5 && !fp.less(Zero, n) ==> r == Ok((Nil, Machine(Cursor(35, 35), [Value.Float(n)]))))
  {
    TapeCompiles(x, n);
    TapeWords(n);
    TapeRuns(fp, Code(TapeTape(n), 21), n, fuel);
  }
}
